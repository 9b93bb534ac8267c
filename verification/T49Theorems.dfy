/** What the two workflows guarantee over every run. */
module T49Theorems {
  import opened Outcomes
  import opened T49Choice
  import opened T49Discovery
  import opened T49Tables
  import opened T49Machine
  import opened T49Invariant
  import opened T49Steps

  lemma {:induction false} Reached(company: int, ls: seq<Label>, more: seq<Label>)
    ensures Inv(Run(Initial(company), ls))
    ensures Inv(Run(Run(Initial(company), ls), more)) && Grows(Run(Initial(company), ls), Run(Run(Initial(company), ls), more))
  {
    InvInitially(company);
    RunKeeps(Initial(company), ls);
    RunKeeps(Run(Initial(company), ls), more);
  }

  /** One operation, container or shipment, sends at most one POST in its life. */
  lemma OnePostPerOperation(company: int, ls: seq<Label>, i: nat, k: nat)
    requires i < k < |Run(Initial(company), ls).posts|
    ensures var posts := Run(Initial(company), ls).posts; posts[i].who != posts[k].who
  {
    Reached(company, ls, []);
    var s := Run(Initial(company), ls);
    assert OwnerOk(s, s.posts[i].who);
    if s.posts[i].who == s.posts[k].who { TwicePosted(s.posts, i, k); }
  }

  lemma {:induction false} TwicePosted(posts: seq<Post>, i: nat, k: nat)
    requires i < k < |posts| && posts[i].who == posts[k].who
    ensures Posted(posts, posts[i].who) >= 2
  {
    var n := |posts| - 1;
    if k < n { TwicePosted(posts[..n], i, k); } else { OncePosted(posts[..n], i); }
  }

  lemma {:induction false} OncePosted(posts: seq<Post>, i: nat)
    requires i < |posts|
    ensures Posted(posts, posts[i].who) >= 1
  {
    var n := |posts| - 1;
    if i < n { OncePosted(posts[..n], i); }
  }

  /** `who` will not POST from here on. */
  predicate Spent(s: Sys, who: Owner) {
    OpOf(s.t, who).Some? && OpOf(s.t, who).value.status != Queued && !(s.pc.Sending? && s.pc.who == who)
  }

  lemma SpentStays(s: Sys, l: Label, who: Owner)
    requires Inv(s) && Enabled(s, l) && Spent(s, who)
    ensures Spent(Next(s, l), who) && Posted(Next(s, l).posts, who) == Posted(s.posts, who)
  {
    LabelKeeps(s, l);
    SendersAndPosts(s, l);
    var u := Next(s, l);
    if u.posts != s.posts { PostedSnoc(s.posts, Post(s.pc.who, s.pc.row.terms), who); }
  }

  /** Only the worker about to send adds a POST, its own, and it gets there
      only from a queued row. */
  lemma SendersAndPosts(s: Sys, l: Label)
    requires Inv(s) && Enabled(s, l)
    ensures var u := Next(s, l);
      && (u.posts == s.posts || (s.pc.Sending? && u.posts == s.posts + [Post(s.pc.who, s.pc.row.terms)]))
      && (u.pc.Sending? && u.pc != s.pc ==> StatusIs(s.t, u.pc.who, Queued))
  {
    hide Inv, Update, BindIn, OtherRequest, Initiate, StartShipment, Defer;
    if s.pc.Claim? {
      assert StatusIs(s.t, s.pc.who, Queued) by { ClaimsQueued(s); }
    }
  }

  lemma ClaimsQueued(s: Sys)
    requires Inv(s) && s.pc.Claim?
    ensures StatusIs(s.t, s.pc.who, Queued)
  {
  }

  /** An operation that an idle worker finds past `queued` is never sent again:
      not after a crash, not after a timeout, whatever happened to its POST. */
  lemma NeverRepeated(company: int, ls: seq<Label>, more: seq<Label>, who: Owner)
    requires var s := Run(Initial(company), ls); s.pc.Idle? && OpOf(s.t, who).Some? && OpOf(s.t, who).value.status != Queued
    ensures var s := Run(Initial(company), ls); Posted(Run(s, more).posts, who) == Posted(s.posts, who)
  {
    Reached(company, ls, []);
    SpentForever(Run(Initial(company), ls), more, who);
  }

  lemma {:induction false} SpentForever(s: Sys, ls: seq<Label>, who: Owner)
    requires Inv(s) && Spent(s, who)
    ensures Spent(Run(s, ls), who) && Posted(Run(s, ls).posts, who) == Posted(s.posts, who)
  {
    if ls != [] {
      var t, l := Run(s, ls[..|ls| - 1]), ls[|ls| - 1];
      SpentForever(s, ls[..|ls| - 1], who);
      RunKeeps(s, ls[..|ls| - 1]);
      if Enabled(t, l) { SpentStays(t, l, who); }
    }
  }

  /** The moment of a POST: its row was committed as `submitting`, and every
      earlier POST of the other workflow for this reference belongs to an
      operation that is already FAILED. */
  lemma WhenPosted(company: int, ls: seq<Label>, l: Label)
    requires Enabled(Run(Initial(company), ls), l)
    requires Next(Run(Initial(company), ls), l).posts != Run(Initial(company), ls).posts
    ensures var s := Run(Initial(company), ls); var posts := Next(s, l).posts; var n := |s.posts|;
      && |posts| == n + 1 && StatusIs(s.t, posts[n].who, Submitting)
      && forall i | 0 <= i < n && Rivals(posts[i], posts[n]) :: StatusIs(s.t, posts[i].who, Failed)
  {
    Reached(company, ls, []);
    var s := Run(Initial(company), ls);
    SendersAndPosts(s, l);
    var p := Post(s.pc.who, s.pc.row.terms);
    SenderClear(s);
    StaysExclusive(s, s.(posts := s.posts + [p]), p);
  }

  lemma SenderClear(s: Sys)
    requires Inv(s) && s.pc.Sending?
    ensures Clear(s.t, s.pc.who, s.pc.row.terms) && StatusIs(s.t, s.pc.who, Submitting)
  {
  }

  /** A container and a shipment operation never both POST one carrier
      reference, unless the earlier of the two is FAILED. */
  lemma WorkflowsExclude(company: int, ls: seq<Label>, i: nat, k: nat)
    requires var posts := Run(Initial(company), ls).posts; i < k < |posts| && Rivals(posts[i], posts[k])
    ensures var s := Run(Initial(company), ls); StatusIs(s.t, s.posts[i].who, Failed)
  {
    Reached(company, ls, []);
  }

  /** What a status proves about a row. */
  lemma StatusMeans(company: int, ls: seq<Label>, who: Owner)
    requires OpOf(Run(Initial(company), ls).t, who).Some?
    ensures var s := Run(Initial(company), ls); var op := OpOf(s.t, who).value;
      && (op.status == Queued ==> Posted(s.posts, who) == 0)
      && (op.status == Pending ==> op.requestId.Some?)
      && (op.status == Linked ==> op.link.Some?)
      && (op.status == Linked && who.Box? ==> Bound(s.t, op.link.value, who.odooId))
      && forall i | 0 <= i < |s.posts| && s.posts[i].who == who :: s.posts[i].terms == op.terms
  {
    Reached(company, ls, []);
    var s := Run(Initial(company), ls);
    assert OwnerOk(s, who);
    forall i | 0 <= i < |s.posts| && s.posts[i].who == who ensures s.posts[i].terms == OpOf(s.t, who).value.terms {
      assert PostOk(s.t, s.posts[i]);
    }
  }

  /** From any moment to any later one: terms are frozen, a request id, a
      container and a shipment id are written at most once, FAILED and a linked
      container stay, and no mapping is rebound. */
  lemma {:induction false} WrittenOnce(company: int, ls: seq<Label>, more: seq<Label>, who: Owner)
    requires OpOf(Run(Initial(company), ls).t, who).Some?
    ensures var s := Run(Initial(company), ls); var u := Run(s, more);
      && OpOf(u.t, who).Some? && OpGrows(who, OpOf(s.t, who).value, OpOf(u.t, who).value)
      && MappingsGrow(s.t.mappings, u.t.mappings)
  {
    Reached(company, ls, more);
  }

  /** The unique indexes of the schema are never violated: one shipment
      operation per reference, one open container operation per number. */
  lemma IndexesHold(company: int, ls: seq<Label>)
    ensures var t := Run(Initial(company), ls).t;
      && (forall o, p | o in t.freights && p in t.freights && SameReference(t.freights[o].terms, t.freights[p].terms) :: o == p)
      && (forall o, p | o in t.boxes && p in t.boxes && Open(t.boxes[o].status) && Open(t.boxes[p].status)
            && t.boxes[o].terms.number == t.boxes[p].terms.number :: o == p)
  {
    Reached(company, ls, []);
  }

  /** Mappings are a partial bijection, a linked container operation is its own
      entry in it for ever, and no two shipment operations share a shipment. */
  lemma Bijection(company: int, ls: seq<Label>, more: seq<Label>)
    ensures var s := Run(Initial(company), ls); var u := Run(s, more);
      && OneToOne(s.t.mappings)
      && (forall o | o in s.t.boxes && s.t.boxes[o].status == Linked ::
            s.t.boxes[o].link.Some? && Bound(s.t, s.t.boxes[o].link.value, o) && Bound(u.t, s.t.boxes[o].link.value, o))
      && (forall o, p | o in s.t.freights && p in s.t.freights && o != p && s.t.freights[o].link.Some? ::
            s.t.freights[o].link != s.t.freights[p].link)
  {
    Reached(company, ls, more);
    var s, u := Run(Initial(company), ls), Run(Run(Initial(company), ls), more);
    forall o | o in s.t.boxes && s.t.boxes[o].status == Linked
      ensures s.t.boxes[o].link.Some? && Bound(s.t, s.t.boxes[o].link.value, o) && Bound(u.t, s.t.boxes[o].link.value, o)
    {
      assert OwnerOk(s, Box(o));
    }
  }
}
