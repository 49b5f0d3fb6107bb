/** The repository is intact when everything the refs link to is live.  Collection
    keeps it intact; a landing keeps it intact exactly when what it lands on is. */
module Integrity {
  import opened Repository
  import opened Steps
  import opened Shape
  import opened Shaping
  import opened Invariant
  import opened Safety
  import opened Runs
  import opened Frames

  ghost predicate LinkPath(g: Content, p: seq<Sha>) {
    |p| > 0 && forall i :: 0 <= i < |p| - 1 ==> p[i + 1] in g.links(p[i])
  }

  /** Everything `x` links to, at any distance, is live. */
  ghost predicate Closed(g: Content, db: Store, x: Sha) {
    forall p :: LinkPath(g, p) && p[0] == x ==> Alive(db, p[|p| - 1])
  }

  /** On the store as it stands when a promotion under way is given back. */
  ghost predicate Intact(g: Content, s: State) {
    forall x :: RefRoot(s.refs, s.pins, x) ==> Closed(g, Undone(s).db, x)
  }

  lemma RefsMoved(g: Content, s: State, a: Action, t: State)
    requires Step(g, s, a, t) && (a.Pin? || a.Unpin? || a.PushDelete? || a.PlainDelete?)
    ensures forall x :: RefRoot(t.refs, t.pins, x) ==> RefRoot(s.refs, s.pins, x)
  {
    hide Alive;
  }

  lemma RootsKept(g: Content, s: State, a: Action, t: State)
    requires Step(g, s, a, t) && !Landing(a)
    ensures forall x :: RefRoot(t.refs, t.pins, x) ==> RefRoot(s.refs, s.pins, x)
  {
    StepFrame(g, s, a, t);
    if MovesRefs(a) { RefsMoved(g, s, a, t); }
  }

  lemma ClosedReachable(g: Content, s: State, p: seq<Sha>)
    requires LinkPath(g, p) && RefRoot(s.refs, s.pins, p[0]) && Closed(g, s.db, p[0])
    ensures Reachable(g, s, p[|p| - 1])
  {
    forall i | 0 <= i < |p| ensures p[i] in LiveSet(s.db) {
      var q := p[..i + 1];
      assert LinkPath(g, q) && q[0] == p[0] && q[|q| - 1] == p[i];
    }
    assert PathTo(g, LiveSet(s.db), p, p[|p| - 1]) && MarkRoot(g, s, p[0]);
  }

  lemma ClosedKept(g: Content, s: State, a: Action, t: State, x: Sha)
    requires BlobsAreLeaves(g) && Inv(g, s) && Step(g, s, a, t) && !GivesBack(a) && (Retires(a) ==> !Torn(s))
    requires RefRoot(s.refs, s.pins, x) && Closed(g, s.db, x)
    ensures Closed(g, t.db, x)
  {
    hide Inv, Step, Reachable;
    StepSafe(g, s, a, t);
    forall p | LinkPath(g, p) && p[0] == x ensures Alive(t.db, p[|p| - 1]) {
      ClosedReachable(g, s, p);
    }
  }

  lemma UndoneClosed(g: Content, s: State, x: Sha)
    requires Closed(g, Undone(s).db, x)
    ensures Closed(g, s.db, x)
  {
    UndoneWithin(s);
  }

  /** Every step that lands no ref keeps an intact repository intact. */
  lemma CollectionIntact(g: Content, s: State, a: Action, t: State)
    requires BlobsAreLeaves(g) && Inv(g, s) && Intact(g, s) && Step(g, s, a, t) && !Landing(a)
    requires Retires(a) ==> !Torn(s)
    ensures Intact(g, t)
  {
    hide Inv, Step, Closed;
    RootsKept(g, s, a, t);
    SpanUndone(g, s, a, t);
    forall x | RefRoot(t.refs, t.pins, x) ensures Closed(g, Undone(t).db, x) {
      if !GivesBack(a) && !Promotes(a) && Undone(t) == t {
        UndoneClosed(g, s, x);
        ClosedKept(g, s, a, t, x);
      }
    }
  }

  ghost predicate RefClosed(g: Content, db: Store, r: Ref) {
    Closed(g, db, r.target) && (r.peeled.Some? ==> Closed(g, db, r.peeled.value))
  }

  /** A barrier landing keeps the repository intact exactly when everything its new
      target and peeled target link to is live. */
  lemma LandingIntact(g: Content, s: State, t: State)
    requires BlobsAreLeaves(g) && Inv(g, s) && Intact(g, s) && PushLandStep(s, t)
    ensures Intact(g, t) <==> RefClosed(g, s.db, s.span.ref)
  {
    hide Inv, Closed;
    if RefClosed(g, s.db, s.span.ref) {
      forall x | RefRoot(t.refs, t.pins, x) ensures Closed(g, t.db, x) {
        if x !in Feeds(s.span.ref) { assert RefRoot(s.refs, s.pins, x); }
      }
    }
    if Intact(g, t) {
      assert t.refs[s.span.name] == s.span.ref;
      assert RefRoot(t.refs, t.pins, s.span.ref.target);
    }
  }

  /** The same for a push that lands while no barrier stands. */
  lemma PlainLandingIntact(g: Content, s: State, n: RefName, r: Ref, t: State)
    requires BlobsAreLeaves(g) && Inv(g, s) && Intact(g, s) && PlainLandStep(s, n, r, t)
    ensures Intact(g, t) <==> RefClosed(g, s.db, r)
  {
    hide Inv, Closed;
    assert Undone(t) == t;
    if RefClosed(g, s.db, r) {
      forall x | RefRoot(t.refs, t.pins, x) ensures Closed(g, t.db, x) {
        if x !in Feeds(r) {
          assert RefRoot(s.refs, s.pins, x);
          UndoneClosed(g, s, x);
        }
      }
    }
    if Intact(g, t) {
      assert t.refs[n] == r;
      assert RefRoot(t.refs, t.pins, r.target);
    }
  }

  ghost predicate LandsClosed(g: Content, s: State, a: Action) {
    && (a.PushLand? ==> s.span.Fed? && RefClosed(g, s.db, s.span.ref))
    && (a.PlainLand? ==> RefClosed(g, s.db, a.ref))
  }

  /** A run that starts intact and lands only on closed targets stays intact, through
      every interleaving of pushes, collection, compaction and stops, unless a torn chain
      retires packs. */
  lemma {:induction false} RunIntact(g: Content, states: seq<State>, acts: seq<Action>, i: nat)
    requires RunFrom(g, states, acts) && i < |states| && Intact(g, states[0])
    requires Unharmed(states, acts, 0, |acts|) && forall k :: 0 <= k < |acts| ==> LandsClosed(g, states[k], acts[k])
    ensures Intact(g, states[i])
  {
    hide Inv, Intact, RefClosed, PlainLandStep, PushLandStep;
    if i > 0 {
      var s, a, t := states[i - 1], acts[i - 1], states[i];
      RunIntact(g, states, acts, i - 1);
      RunInvariant(g, states, acts, i - 1);
      assert LandsClosed(g, s, a) && StepAt(g, states, acts, i - 1);
      if a.PushLand? {
        LandingIntact(g, s, t);
      } else if a.PlainLand? {
        PlainLandingIntact(g, s, a.name, a.ref, t);
      } else {
        CollectionIntact(g, s, a, t);
      }
    }
  }
}
