/** The marking invariant: no live object reachable from the roots is forgotten.

    Black objects are those recorded as expanded.  A black object outside the
    frontier has only covered links, roots are covered, and a marked entry is black
    or still queued.  `Covered` is what protects an object from the sweep now: it is
    black, queued, past a pending cursor, or a blob with a copy outside the cohort. */
module Marking {
  import opened Repository
  import opened Steps
  import opened Shape
  import opened Shaping

  function Black(s: State): set<Sha> {
    s.seen + (if s.chain.Some? then s.chain.value.done else {})
  }

  ghost predicate Covered(g: Content, db: Store, m: Cohort, black: set<Sha>, queued: set<Sha>,
                          pending: map<PackId, int>, x: Sha) {
    x in black || x in queued || PendingRoot(g, db, pending, x) || (g.kind(x).Blob? && Outer(db, m, x))
  }

  ghost predicate LinksCovered(g: Content, db: Store, m: Cohort, black: set<Sha>, queued: set<Sha>,
                               pending: map<PackId, int>) {
    forall x, y :: x in black && x !in queued && Alive(db, x) && y in g.links(x) && Alive(db, y) ==>
      Covered(g, db, m, black, queued, pending, y)
  }

  ghost predicate RootsCovered(g: Content, s: State) {
    forall x :: MarkRoot(g, s, x) && Alive(s.db, x) ==>
      Covered(g, s.db, s.marked, Black(s), s.frontier.Keys, s.pending, x)
  }

  ghost predicate BitsQueued(db: Store, m: Cohort, black: set<Sha>, queued: set<Sha>) {
    forall x, p :: p in m && LiveCopy(db, x, p) && db.rows[p][x] in m[p].bitmap ==> x in black || x in queued
  }

  ghost predicate BlackSafe(db: Store, m: Cohort, black: set<Sha>) {
    forall x :: x in black && Alive(db, x) ==> Safe(db, m, x)
  }

  ghost predicate SeenAlive(db: Store, seen: set<Sha>) {
    forall x :: x in seen ==> Alive(db, x)
  }

  /** When the marking invariant is on duty: the cohort stands, and either the barrier
      feeds the queue or nothing was pushed, whole or cut, since the mark began. */
  predicate Duty(s: State) {
    && s.chain.Some? && Whole(s.db, s.marked)
    && (s.chain.value.mode.Barrier? || (Unmoved(s) && !s.chain.value.missed))
  }

  /** .. outside the span of a push that has not moved `refs_version` yet. */
  predicate OnDuty(s: State) {
    Duty(s) && !Plain(s.span)
  }

  ghost predicate Tricolour(g: Content, s: State) {
    && LinksCovered(g, s.db, s.marked, Black(s), s.frontier.Keys, s.pending)
    && RootsCovered(g, s)
    && BitsQueued(s.db, s.marked, Black(s), s.frontier.Keys)
    && BlackSafe(s.db, s.marked, Black(s))
    && (s.chain.Some? && s.chain.value.mode.Barrier? ==> SeenAlive(s.db, s.seen))
  }

  ghost predicate MarkOk(g: Content, s: State) {
    && (OnDuty(s) ==> Tricolour(g, s))
    && (Duty(s) && !s.span.PlainOpen? ==> Tricolour(g, Undone(s)))
  }

  // ---- frames ----

  lemma Grow(g: Content, a: Store, b: Store, m: Cohort, pending: map<PackId, int>)
    requires LiveKept(a, b)
    ensures forall x :: Alive(a, x) ==> Alive(b, x)
    ensures forall x :: Outer(a, m, x) ==> Outer(b, m, x)
    ensures forall x :: Safe(a, m, x) ==> Safe(b, m, x)
    ensures forall x :: PendingRoot(g, a, pending, x) ==> PendingRoot(g, b, pending, x)
  {
    assert forall x, p :: LiveCopy(a, x, p) ==> LiveCopy(b, x, p);
    assert forall x, p :: OuterCopy(a, m, x, p) ==> OuterCopy(b, m, x, p);
    assert forall x, p :: SafeCopy(a, m, x, p) ==> SafeCopy(b, m, x, p);
    assert forall x, p :: PendingCopy(a, pending, x, p) ==> PendingCopy(b, pending, x, p);
  }

  /** The invariant moves to a state that keeps the queue, the black set and the
      live shas, and keeps copies up to shas that are black or queued. */
  lemma Transfer(g: Content, s: State, t: State)
    requires Tricolour(g, s)
    requires t.refs == s.refs && t.pins == s.pins && t.frontier.Keys == s.frontier.Keys && t.seen == s.seen
    requires Black(t) == Black(s) && BarrierOn(t) == BarrierOn(s)
    requires forall x :: Alive(t.db, x) <==> Alive(s.db, x)
    requires forall x :: Safe(s.db, s.marked, x) ==> Safe(t.db, t.marked, x)
    requires forall x :: PendingRoot(g, s.db, s.pending, x) ==> PendingRoot(g, t.db, t.pending, x)
    requires forall x :: x in Black(s) || x in s.frontier || (Outer(t.db, t.marked, x) <==> Outer(s.db, s.marked, x))
    requires BitsQueued(t.db, t.marked, Black(t), t.frontier.Keys)
    ensures Tricolour(g, t)
  {
  }

  /** Stores with the same live rows carry the same invariant. */
  lemma TricolourFrame(g: Content, s: State, t: State)
    requires LiveKept(s.db, t.db) && LiveKept(t.db, s.db)
    requires SameChain(s, t) && t == s.(db := t.db, chain := t.chain, plan := t.plan, span := t.span)
    requires Tricolour(g, s)
    ensures Tricolour(g, t)
  {
    Grow(g, s.db, t.db, s.marked, s.pending);
    Grow(g, t.db, s.db, s.marked, s.pending);
    Transfer(g, s, t);
  }

  /** Queueing more never hurts. */
  lemma Queue(g: Content, s: State, t: State)
    requires Tricolour(g, s)
    requires t == s.(frontier := t.frontier, span := t.span)
    requires s.frontier.Keys <= t.frontier.Keys
    ensures Tricolour(g, t)
  {
  }

  lemma TurnLive(db: Store, p: PackId)
    requires !LivePack(db, p)
    ensures LiveKept(db, Turn(db, {p}, Live))
    ensures forall x, q :: LiveCopy(Turn(db, {p}, Live), x, q) ==> q == p || LiveCopy(db, x, q)
  {
  }

  /** What a freshly live pending pack brings is covered. */
  lemma Arrival(g: Content, s: State, p: PackId, db: Store)
    requires p !in s.marked && p in s.pending && s.pending[p] == -1
    requires db.rows == s.db.rows && forall x, q :: LiveCopy(db, x, q) ==> q == p || LiveCopy(s.db, x, q)
    ensures forall x :: Alive(db, x) && !Alive(s.db, x) ==>
      Covered(g, db, s.marked, Black(s), s.frontier.Keys, s.pending, x)
    ensures forall x :: !g.kind(x).Blob? && Outer(db, s.marked, x) && !Outer(s.db, s.marked, x) ==>
      PendingRoot(g, db, s.pending, x)
  {
    forall x | Alive(db, x) && !Alive(s.db, x)
      ensures Covered(g, db, s.marked, Black(s), s.frontier.Keys, s.pending, x)
    {
      var q :| LiveCopy(db, x, q);
      assert PendingCopy(db, s.pending, x, p) && OuterCopy(db, s.marked, x, p);
    }
    forall x | !g.kind(x).Blob? && Outer(db, s.marked, x) && !Outer(s.db, s.marked, x)
      ensures PendingRoot(g, db, s.pending, x)
    {
      var q :| OuterCopy(db, s.marked, x, q);
      if q != p { assert OuterCopy(s.db, s.marked, x, q); }
      assert PendingCopy(db, s.pending, x, p);
    }
  }

  lemma Promote(g: Content, s: State, p: PackId, t: State)
    requires Tricolour(g, s) && BarrierOn(s) && s.chain.value.done == {} && p !in s.marked
    requires p in s.pending && s.pending[p] == -1
    requires LiveKept(s.db, t.db) && t.db.rows == s.db.rows
    requires forall x, q :: LiveCopy(t.db, x, q) ==> q == p || LiveCopy(s.db, x, q)
    requires t == s.(db := t.db, span := t.span)
    ensures Tricolour(g, t)
  {
    Grow(g, s.db, t.db, s.marked, s.pending);
    Arrival(g, s, p, t.db);
    forall x | MarkRoot(g, t, x) && Alive(t.db, x)
      ensures Covered(g, t.db, t.marked, Black(t), t.frontier.Keys, t.pending, x)
    {
      if Alive(s.db, x) && MarkRoot(g, s, x) {}
    }
  }

  // ---- one lemma per action that touches what the invariant reads ----

  /** Spans in which nothing is half done. */
  predicate Settled(sp: Span) {
    !Plain(sp) && !sp.Promoted?
  }

  lemma StoreMark(g: Content, s: State, t: State)
    requires MarkOk(g, s) && Settled(s.span) && Settled(t.span) && SameChain(s, t)
    requires t == s.(db := t.db, chain := t.chain, plan := t.plan, span := t.span)
    requires LiveKept(s.db, t.db) && LiveKept(t.db, s.db)
    ensures MarkOk(g, t)
  {
    hide Tricolour;
    if Duty(t) {
      assert Whole(s.db, s.marked) by {
        forall p | p in s.marked ensures LivePack(s.db, p) { assert LivePack(t.db, p); }
      }
      TricolourFrame(g, s, t);
    }
  }

  lemma PinMark(g: Content, s: State, t: State)
    requires MarkOk(g, s) && s.span.Idle? && t == s.(pins := t.pins)
    requires forall x :: RefRoot(t.refs, t.pins, x) ==> RefRoot(s.refs, s.pins, x)
    ensures MarkOk(g, t)
  {
  }

  lemma PushPendingMark(g: Content, s: State, p: PackId, t: State)
    requires MarkOk(g, s) && PushPendingStep(s, p, t)
    ensures MarkOk(g, t)
  {
    if OnDuty(t) {
      assert forall x, q :: PendingCopy(s.db, s.pending, x, q) ==> PendingCopy(t.db, t.pending, x, q);
      Transfer(g, s, t);
    }
  }

  lemma PushPromoteMark(g: Content, s: State, p: PackId, t: State)
    requires MarkOk(g, s) && PushPromoteStep(s, p, t) && BarrierOn(s) && s.chain.value.done == {}
    requires p !in s.marked && p in s.pending && s.pending[p] == -1
    ensures MarkOk(g, t)
  {
    hide Tricolour, Promotable;
    if Duty(t) {
      UndoneState(g, s, p, t);
      TurnLive(s.db, p);
      Promote(g, s, p, t);
    }
  }

  /** Undoing a promotion gives back what the invariant reads. */
  lemma UndoneState(g: Content, s: State, p: PackId, t: State)
    requires Promotable(s.db, p) && t == s.(db := Turn(s.db, {p}, Live), span := t.span) && Settled(s.span)
    requires t.span == PlainPromoted(p) || t.span == Promoted(p)
    ensures Undone(t) == s.(span := t.span) && (Tricolour(g, Undone(t)) <==> Tricolour(g, s))
    ensures p !in s.marked && Whole(t.db, t.marked) ==> Whole(s.db, s.marked)
  {
    PromoteUndone(s, p, t);
    if Whole(t.db, t.marked) && p !in s.marked {
      forall q | q in s.marked ensures LivePack(s.db, q) { assert LivePack(t.db, q); }
    }
  }

  lemma PlainPromoteMark(g: Content, s: State, p: PackId, t: State)
    requires MarkOk(g, s) && PlainPromoteStep(s, p, t) && (s.chain.Some? ==> p !in s.marked)
    ensures MarkOk(g, t)
  {
    hide Tricolour, Promotable;
    UndoneState(g, s, p, t);
  }

  /** A promotion given back leaves what the invariant held of before it. */
  lemma GiveBackMark(g: Content, s: State, t: State)
    requires MarkOk(g, s) && (s.span.PlainPromoted? || s.span.Promoted?) && !t.span.PlainPromoted? && !t.span.Promoted?
    requires t == s.(db := Turn(s.db, {s.span.pack}, Ingesting), span := t.span)
    ensures MarkOk(g, t)
  {
    if Duty(t) {
      assert Whole(s.db, s.marked) by {
        forall q | q in s.marked ensures LivePack(s.db, q) { assert LivePack(t.db, q); }
      }
      assert t == Undone(s).(span := t.span);
    }
  }

  lemma DropPendingMark(g: Content, s: State, t: State)
    requires MarkOk(g, s) && t == s.(pending := t.pending, span := t.span) && Settled(s.span) && Settled(t.span)
    requires forall x :: PendingRoot(g, s.db, s.pending, x) ==>
      PendingRoot(g, t.db, t.pending, x) || x in s.seen || x in s.frontier
    ensures MarkOk(g, t)
  {
  }

  lemma QueueMark(g: Content, s: State, feed: set<Sha>, gen: nat, t: State)
    requires MarkOk(g, s) && !Plain(s.span) && Settled(t.span)
    requires t == s.(frontier := Upsert(s.frontier, feed, s.seen, gen), span := t.span)
    ensures MarkOk(g, t)
  {
    if OnDuty(t) { Queue(g, s, t); }
  }

  lemma PushLandMark(g: Content, s: State, t: State)
    requires SpanOk(g, s) && MarkOk(g, s) && PushLandStep(s, t)
    ensures MarkOk(g, t)
  {
    forall x | RefRoot(t.refs, t.pins, x) ensures RefRoot(s.refs, s.pins, x) || x in Feeds(s.span.ref) {}
  }

  lemma PushDeleteMark(g: Content, s: State, n: RefName, t: State)
    requires MarkOk(g, s) && PushDeleteStep(s, n, t)
    ensures MarkOk(g, t)
  {
    forall x | RefRoot(t.refs, t.pins, x) ensures RefRoot(s.refs, s.pins, x) {}
  }

  lemma FlushBitsMark(g: Content, s: State, ids: set<Sha>, t: State)
    requires StoreOk(s.db) && PlanOk(s) && MarkOk(g, s) && FlushBitsStep(s, ids, t)
    ensures MarkOk(g, t)
  {
    if OnDuty(t) {
      assert forall x, p :: SafeCopy(s.db, s.marked, x, p) ==> SafeCopy(t.db, t.marked, x, p);
      assert forall x, p :: OuterCopy(s.db, s.marked, x, p) <==> OuterCopy(t.db, t.marked, x, p);
      forall x, p | p in t.marked && LiveCopy(t.db, x, p) && t.db.rows[p][x] in t.marked[p].bitmap
        ensures x in Black(t) || x in t.frontier
      {
        if t.db.rows[p][x] !in s.marked[p].bitmap {
          var y :| y in s.plan.value.hits && s.plan.value.hits[y] == p && Copy(s.db, y, p)
            && s.db.rows[p][y] == t.db.rows[p][x];
          assert Ordinals(s.db.rows[p]);
          assert x == y;
        }
      }
      Transfer(g, s, t);
    }
  }

  /** Queued shas whose copies are safe may be recorded as expanded. */
  lemma Blacken(g: Content, s: State, ids: set<Sha>, t: State)
    requires Tricolour(g, s) && t == s.(seen := s.seen + ids, span := t.span)
    requires forall x :: x in ids && Alive(s.db, x) ==> Safe(s.db, s.marked, x) && x in s.frontier
    requires BarrierOn(s) ==> forall x :: x in ids ==> Alive(s.db, x)
    ensures Tricolour(g, t)
  {
  }

  lemma WriteSeenMark(g: Content, s: State, t: State)
    requires SpanOk(g, s) && PlanOk(s) && MarkOk(g, s) && WriteSeenStep(s, t)
    ensures MarkOk(g, t)
  {
    if OnDuty(t) {
      forall x | x in s.span.ids && Alive(s.db, x) ensures Safe(s.db, s.marked, x) && x in s.frontier {
        assert x in s.plan.value.hits;
        assert SafeCopy(s.db, s.marked, x, s.plan.value.hits[x]);
      }
      Blacken(g, s, s.span.ids, t);
    }
  }

  /** Expanded shas leave the queue once their links are black or queued. */
  lemma Retire(g: Content, s: State, ids: set<Sha>, t: State)
    requires Tricolour(g, s) && t == s.(frontier := s.frontier - ids, plan := t.plan, span := t.span)
    requires ids <= Black(s) && forall x :: x in ids && Alive(s.db, x) ==> g.links(x) <= Black(s) + s.frontier.Keys
    ensures Tricolour(g, t)
  {
    hide RefRoot, Outer, Safe, PendingRoot, Alive;
  }

  lemma DropExpandedMark(g: Content, s: State, t: State)
    requires SpanOk(g, s) && PlanOk(s) && MarkOk(g, s) && DropExpandedStep(s, t)
    ensures MarkOk(g, t)
  {
    if OnDuty(t) {
      forall x, y | x in s.span.ids && Alive(s.db, x) && y in g.links(x) ensures y in Black(s) || y in s.frontier {
        assert x in Read(s, s.span.ids);
        assert y in Kids(g, Read(s, s.span.ids));
      }
      Retire(g, s, s.span.ids, t);
    }
  }

  /** Objects that are not live need not be queued. */
  lemma Unqueue(g: Content, s: State, t: State)
    requires Tricolour(g, s) && t == s.(frontier := t.frontier, plan := t.plan)
    requires t.frontier.Keys <= s.frontier.Keys && forall x :: x in s.frontier && x !in t.frontier ==> !Alive(s.db, x)
    ensures Tricolour(g, t)
  {
    hide RefRoot, Outer, Safe, PendingRoot;
    assert forall x, p :: LiveCopy(s.db, x, p) ==> Alive(s.db, x);
  }

  lemma DropMissesMark(g: Content, s: State, misses: set<Sha>, t: State)
    requires MarkOk(g, s) && DropMissesStep(s, misses, t)
    ensures MarkOk(g, t)
  {
    if OnDuty(t) { Unqueue(g, s, t); }
  }

  lemma PageMoveMark(g: Content, s: State, t: State)
    requires SpanOk(g, s) && MarkOk(g, s) && PageMoveStep(s, t)
    ensures MarkOk(g, t)
  {
    var p := s.span.pack;
    forall x | PendingRoot(g, s.db, s.pending, x)
      ensures PendingRoot(g, t.db, t.pending, x) || x in s.seen || x in s.frontier
    {
      var q :| PendingCopy(s.db, s.pending, x, q);
      if q == p && s.db.rows[p][x] <= s.span.cursor {
        assert x in Page(g, s.db, p, s.pending[p], s.span.cursor);
      } else {
        assert PendingCopy(t.db, t.pending, x, q);
      }
    }
    DropPendingMark(g, s, t);
  }

  lemma PageDoneMark(g: Content, s: State, t: State)
    requires SpanOk(g, s) && MarkOk(g, s) && PageDoneStep(s, t)
    ensures MarkOk(g, t)
  {
    assert forall x, q :: PendingCopy(s.db, s.pending, x, q) ==> PendingCopy(t.db, t.pending, x, q);
    DropPendingMark(g, s, t);
  }

  lemma FreezeMark(g: Content, s: State, t: State)
    requires MarkOk(g, s) && FreezeBuiltStep(s, t)
    ensures MarkOk(g, t)
  {
    if OnDuty(t) {
      assert forall x, p :: SafeCopy(s.db, s.marked, x, p) <==> SafeCopy(t.db, t.marked, x, p);
      assert forall x, p :: OuterCopy(s.db, s.marked, x, p) <==> OuterCopy(t.db, t.marked, x, p);
      Transfer(g, s, t);
    }
  }

  /** The build pack's shas are marked in the live cohort. */
  lemma BuildPackMarked(g: Content, s: State, x: Sha)
    requires ShapeOk(g, s) && OnDuty(s) && MarkOk(g, s) && BuiltSha(s.db, s.marked, x)
    ensures Alive(s.db, x) && (x in Black(s) || x in s.frontier)
    ensures exists p :: p in s.marked && SafeCopy(s.db, s.marked, x, p)
  {
    var p :| BuiltCopy(s.db, s.marked, x, p);
    assert BuiltBits(s.marked[p]) <= s.marked[p].bitmap;
    assert SafeCopy(s.db, s.marked, x, p) && LiveCopy(s.db, x, p);
  }

  lemma CopyIn(g: Content, s: State, n: PackId, t: State)
    requires Tricolour(g, s) && n !in s.marked && t.db.rows == s.db.rows
    requires t == s.(db := t.db) && LiveKept(s.db, t.db)
    requires forall x, q :: LiveCopy(t.db, x, q) ==> q == n || LiveCopy(s.db, x, q)
    requires forall x :: Copy(s.db, x, n) ==> Alive(s.db, x) && (x in Black(s) || x in s.frontier)
    ensures Tricolour(g, t)
  {
    Grow(g, s.db, t.db, s.marked, s.pending);
    forall x | Outer(t.db, t.marked, x) && !Outer(s.db, s.marked, x) ensures x in Black(s) || x in s.frontier {
      var q :| OuterCopy(t.db, t.marked, x, q);
      assert q == n || OuterCopy(s.db, s.marked, x, q);
    }
    assert forall x :: Alive(t.db, x) ==> Alive(s.db, x);
    Transfer(g, s, t);
  }

  /** Every object of pack n is black or queued, and marked in a live cohort copy. */
  ghost predicate Spare(s: State, n: PackId) {
    forall x :: Copy(s.db, x, n) ==>
      (x in Black(s) || x in s.frontier) && exists p :: p in s.marked && SafeCopy(s.db, s.marked, x, p)
  }

  lemma CopyOut(g: Content, s: State, n: PackId, t: State)
    requires Tricolour(g, s) && n !in s.marked && n !in s.pending && Spare(s, n)
    requires t == s.(db := t.db, chain := t.chain, plan := t.plan, span := t.span) && SameChain(s, t) && s.chain.Some?
    requires SameElse(s.db, t.db, n) && (forall x :: !Copy(t.db, x, n))
    ensures Tricolour(g, t) && forall x :: Alive(s.db, x) ==> Alive(t.db, x)
  {
    assert forall x, q :: LiveCopy(t.db, x, q) <==> LiveCopy(s.db, x, q) && q != n;
    assert forall x, q :: SafeCopy(s.db, s.marked, x, q) && q != n ==> SafeCopy(t.db, t.marked, x, q);
    forall x | Alive(s.db, x) ensures Alive(t.db, x) {
      var q :| LiveCopy(s.db, x, q);
      if q == n {
        var p :| p in s.marked && SafeCopy(s.db, s.marked, x, p);
        assert LiveCopy(t.db, x, p);
      }
    }
    forall x | Safe(s.db, s.marked, x) ensures Safe(t.db, t.marked, x) {
      var q :| SafeCopy(s.db, s.marked, x, q);
      if q == n {
        var p :| p in s.marked && SafeCopy(s.db, s.marked, x, p);
        assert SafeCopy(t.db, t.marked, x, p);
      }
    }
    assert forall x, q :: PendingCopy(s.db, s.pending, x, q) ==> PendingCopy(t.db, t.pending, x, q);
    assert forall x, q :: OuterCopy(t.db, t.marked, x, q) ==> OuterCopy(s.db, s.marked, x, q);
    assert forall x, q :: OuterCopy(s.db, s.marked, x, q) && !Copy(s.db, x, n) ==> OuterCopy(t.db, t.marked, x, q);
    Transfer(g, s, t);
  }

  lemma FlipLiveMark(g: Content, s: State, count: nat, t: State)
    requires ShapeOk(g, s) && MarkOk(g, s) && FlipLiveStep(s, count, t)
    ensures MarkOk(g, t)
  {
    if OnDuty(t) {
      forall x | Copy(s.db, x, s.chain.value.newPack.value)
        ensures Alive(s.db, x) && (x in Black(s) || x in s.frontier)
      {
        BuildPackMarked(g, s, x);
      }
      CopyIn(g, s, s.chain.value.newPack.value, t);
    }
  }

  /** The chain's build pack loses its rows, or dies without any. */
  lemma WipeMark(g: Content, s: State, t: State)
    requires ShapeOk(g, s) && MarkOk(g, s) && s.chain.Some? && s.chain.value.newPack.Some?
    requires t == s.(db := t.db, plan := t.plan, span := t.span) && Settled(s.span) && Settled(t.span)
    requires SameElse(s.db, t.db, s.chain.value.newPack.value)
    requires forall x :: !Copy(t.db, x, s.chain.value.newPack.value)
    ensures MarkOk(g, t) && (OnDuty(s) ==> forall x :: Alive(s.db, x) ==> Alive(t.db, x))
  {
    hide Tricolour, SpanOk, TrustOk, PlanOk, StoreOk, PinsOk;
    var n := s.chain.value.newPack.value;
    assert Whole(t.db, t.marked) ==> Whole(s.db, s.marked);
    if OnDuty(s) {
      BuildPackSpares(g, s);
      CopyOut(g, s, n, t);
    }
  }

  lemma BuildPackSpares(g: Content, s: State)
    requires ShapeOk(g, s) && MarkOk(g, s) && OnDuty(s) && s.chain.value.newPack.Some?
    ensures Spare(s, s.chain.value.newPack.value)
  {
    hide Tricolour, SpanOk, TrustOk, PlanOk, StoreOk, PinsOk, BuiltSha;
    var n := s.chain.value.newPack.value;
    forall x | Copy(s.db, x, n)
      ensures (x in Black(s) || x in s.frontier) && exists p :: p in s.marked && SafeCopy(s.db, s.marked, x, p)
    {
      BuildPackMarked(g, s, x);
    }
  }
}
