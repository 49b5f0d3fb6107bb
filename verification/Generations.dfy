/** Generation 0 is the snapshot the mark started from: while a generation-0 row
    is queued only snapshot work is popped, and once none is left none returns. */
module Generations {
  import opened Repository
  import opened Steps
  import opened Shape
  import opened Marking

  predicate Zero(f: map<Sha, nat>, x: Sha) {
    x in f && f[x] == 0
  }

  predicate AnyZero(f: map<Sha, nat>) {
    exists x :: x in f && Zero(f, x)
  }

  /** Reachable from the snapshot's roots through objects live at the snapshot. */
  ghost predicate SnapReachable(g: Content, c: Chain, x: Sha) {
    x in c.snapLive && exists p :: PathTo(g, c.snapLive, p, x) && p[0] in c.snapRoots
  }

  ghost predicate SnapDone(g: Content, c: Chain, seen: set<Sha>) {
    forall x :: SnapReachable(g, c, x) ==> x in seen
  }

  /** While snapshot rows are queued: snapshot roots and the snapshot links of
      expanded objects are expanded or queued at generation 0, and nothing
      expanded is queued at a later generation. */
  ghost predicate SnapWalk(g: Content, c: Chain, f: map<Sha, nat>, seen: set<Sha>) {
    && (forall x :: x in c.snapRoots && x in c.snapLive ==> x in seen || Zero(f, x))
    && (forall x, y :: x in seen && x !in f && y in g.links(x) && y in c.snapLive ==> y in seen || Zero(f, y))
    && (forall x :: x in seen && x in f ==> Zero(f, x))
  }

  ghost predicate PlanGen(s: State) {
    Fenced(s) && Walking(s.chain.value) ==>
      && (s.plan.value.gen == 0 ==> forall x :: x in s.plan.value.hits ==> Zero(s.frontier, x))
      && (s.plan.value.gen > 0 ==> !AnyZero(s.frontier))
  }

  ghost predicate SpanGen(g: Content, s: State) {
    s.span.KidsFed? && s.plan.Some? && s.plan.value.gen == 0 ==>
      forall y :: y in Kids(g, Read(s, s.span.ids)) ==> y in s.seen || Zero(s.frontier, y)
  }

  ghost predicate SnapAlive(s: State) {
    s.chain.Some? ==> forall x :: x in s.chain.value.snapLive ==> Alive(Undone(s).db, x)
  }

  ghost predicate GenOk(g: Content, s: State) {
    (BarrierOn(s) || s.span.InitStarted?) && s.chain.Some? && Whole(s.db, s.marked) ==>
      && (if AnyZero(s.frontier) then SnapWalk(g, s.chain.value, s.frontier, s.seen)
          else SnapDone(g, s.chain.value, s.seen))
      && PlanGen(s) && SpanGen(g, s) && SnapAlive(s)
  }

  // ---- the last snapshot row ----

  lemma {:induction false} SnapPath(g: Content, c: Chain, f: map<Sha, nat>, seen: set<Sha>, p: seq<Sha>)
    requires SnapWalk(g, c, f, seen) && !AnyZero(f)
    requires Path(g, c.snapLive, p) && p[0] in c.snapRoots && p[|p| - 1] in c.snapLive
    ensures p[|p| - 1] in seen
  {
    if |p| > 1 {
      var q := p[..|p| - 1];
      assert q[|q| - 1] == p[|p| - 2];
      SnapPath(g, c, f, seen, q);
    }
  }

  lemma SnapshotFinished(g: Content, c: Chain, f: map<Sha, nat>, seen: set<Sha>)
    requires SnapWalk(g, c, f, seen) && !AnyZero(f)
    ensures SnapDone(g, c, seen)
  {
    forall x | SnapReachable(g, c, x) ensures x in seen {
      var p :| PathTo(g, c.snapLive, p, x) && p[0] in c.snapRoots;
      SnapPath(g, c, f, seen, p);
    }
  }

  // ---- steps ----

  /** A later-generation feed adds no generation-0 row and no expanded sha. */
  lemma LateFeed(g: Content, s: State, feed: set<Sha>, t: State)
    requires GenOk(g, s) && BarrierOn(s) && !t.span.KidsFed? && Settled(t.span) && !t.span.InitStarted?
    requires t == s.(frontier := Upsert(s.frontier, feed, s.seen, 1), span := t.span)
    requires forall x :: Alive(Undone(s).db, x) ==> Alive(s.db, x)
    ensures GenOk(g, t) && (AnyZero(t.frontier) ==> AnyZero(s.frontier))
  {
    assert forall x :: Zero(s.frontier, x) <==> Zero(t.frontier, x);
    assert AnyZero(t.frontier) <==> AnyZero(s.frontier);
  }

  lemma UpsertSnap(g: Content, c: Chain, f: map<Sha, nat>, feed: set<Sha>, seen: set<Sha>, gen: nat)
    requires SnapWalk(g, c, f, seen)
    ensures SnapWalk(g, c, Upsert(f, feed, seen, gen), seen)
  {
    assert forall x :: Zero(f, x) ==> Zero(Upsert(f, feed, seen, gen), x);
  }

  lemma KidsFedZero(g: Content, s: State, kids: set<Sha>, t: State)
    requires FeedKidsStep(g, s, kids, t)
    ensures SpanGen(g, t) && forall x :: Zero(s.frontier, x) ==> Zero(t.frontier, x)
    ensures s.plan.value.gen > 0 || kids == {} ==> forall x :: Zero(t.frontier, x) ==> Zero(s.frontier, x)
  {
  }

  lemma FeedKidsGen(g: Content, s: State, kids: set<Sha>, t: State)
    requires SpanOk(g, s) && PlanOk(s) && GenOk(g, s) && BarrierOn(s) && FeedKidsStep(g, s, kids, t)
    ensures GenOk(g, t) && (Whole(t.db, t.marked) && AnyZero(t.frontier) ==> AnyZero(s.frontier))
  {
    hide Taken, StakedOk, Retiring, Emptied, Page, SnapWalk, SnapDone, Alive, Upsert, SpanGen;
    var pl := s.plan.value;
    KidsFedZero(g, s, kids, t);
    if Whole(t.db, t.marked) {
      if AnyZero(s.frontier) { UpsertSnap(g, s.chain.value, s.frontier, kids, s.seen, pl.gen); }
      if pl.gen > 0 || pl.hits == map[] {
        assert pl.hits == map[] ==> kids == {};
        assert forall x :: Zero(s.frontier, x) <==> Zero(t.frontier, x);
      } else {
        var x :| x in pl.hits;
        assert Zero(s.frontier, x) && Zero(t.frontier, x);
      }
    }
  }

  lemma WriteSeenGen(g: Content, s: State, t: State)
    requires SpanOk(g, s) && PlanOk(s) && GenOk(g, s) && BarrierOn(s) && WriteSeenStep(s, t)
    ensures GenOk(g, t)
  {
  }

  lemma DropExpandedGen(g: Content, s: State, t: State)
    requires SpanOk(g, s) && PlanOk(s) && GenOk(g, s) && BarrierOn(s) && DropExpandedStep(s, t)
    ensures GenOk(g, t)
  {
    hide Taken, StakedOk, Retiring, Emptied, Page, SnapReachable, Alive, LiveCopy;
    if Whole(s.db, s.marked) {
      assert forall x :: Zero(t.frontier, x) ==> Zero(s.frontier, x);
      if AnyZero(s.frontier) {
        forall x, y | x in s.span.ids && y in g.links(x) && y in s.chain.value.snapLive
          ensures y in t.seen || Zero(t.frontier, y)
        {
          assert x in Read(s, s.span.ids) && y in Kids(g, Read(s, s.span.ids));
        }
        assert SnapWalk(g, t.chain.value, t.frontier, t.seen);
        if !AnyZero(t.frontier) { SnapshotFinished(g, t.chain.value, t.frontier, t.seen); }
      }
    }
  }

  lemma DropMissesGen(g: Content, s: State, misses: set<Sha>, t: State)
    requires PlanOk(s) && GenOk(g, s) && BarrierOn(s) && SeenAlive(s.db, s.seen) && DropMissesStep(s, misses, t)
    ensures GenOk(g, t)
  {
    hide SnapReachable;
    assert forall x, p :: LiveCopy(s.db, x, p) ==> Alive(s.db, x);
    if Whole(s.db, s.marked) {
      assert forall x :: Zero(t.frontier, x) ==> Zero(s.frontier, x);
      if AnyZero(s.frontier) {
        assert SnapWalk(g, t.chain.value, t.frontier, t.seen);
        if !AnyZero(t.frontier) { SnapshotFinished(g, t.chain.value, t.frontier, t.seen); }
      }
    }
  }

  lemma InitGen(g: Content, s: State, t: State)
    requires InitMarkStep(g, s, t)
    ensures GenOk(g, t)
  {
    assert forall x :: x in t.frontier ==> Zero(t.frontier, x);
  }

  lemma PlanBatchGen(g: Content, s: State, pl: Plan, t: State)
    requires GenOk(g, s) && PlanBatchStep(s, pl, t)
    ensures GenOk(g, t)
  {
  }
}
