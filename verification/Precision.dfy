/** The other bound of the mark: nothing is marked without a reason.

    Every object a chain queues, expands or marks is reachable, through objects that were live
    during the chain, from a root the tables named just before mark start, from a target some
    push fed, or from an object of a page.  So nothing else survives in the build pack, and what
    lives in packs that go and is not owed this way dies. */
module Precision {
  import opened Repository
  import opened Steps
  import opened Shape
  import opened Marking
  import opened Generations
  import opened Invariant
  import opened Safety
  import opened Runs
  import opened Losses

  /** Reachable from `roots` through objects of `live`. */
  ghost predicate Led(g: Content, live: set<Sha>, roots: set<Sha>, x: Sha) {
    exists p :: PathTo(g, live, p, x) && p[0] in roots
  }

  lemma LedMore(g: Content, live: set<Sha>, roots: set<Sha>, more: set<Sha>, further: set<Sha>)
    requires live <= more && roots <= further
    ensures forall x :: Led(g, live, roots, x) ==> Led(g, more, further, x)
  {
    forall x | Led(g, live, roots, x) ensures Led(g, more, further, x) {
      var p :| PathTo(g, live, p, x) && p[0] in roots;
      assert PathTo(g, more, p, x);
    }
  }

  lemma LedRoot(g: Content, live: set<Sha>, roots: set<Sha>, x: Sha)
    requires x in roots
    ensures Led(g, live, roots, x)
  {
    assert PathTo(g, live, [x], x);
  }

  lemma LedLink(g: Content, live: set<Sha>, roots: set<Sha>, y: Sha, x: Sha)
    requires Led(g, live, roots, y) && y in live && x in g.links(y)
    ensures Led(g, live, roots, x)
  {
    var p :| PathTo(g, live, p, y) && p[0] in roots;
    assert PathTo(g, live, p + [x], x) && (p + [x])[0] == p[0];
  }

  predicate MarkedCopy(db: Store, m: Cohort, x: Sha, p: PackId) {
    p in m && Copy(db, x, p) && db.rows[p][x] in m[p].bitmap
  }

  /** The shas a slice of the standing chain holds in memory. */
  function Held(s: State): set<Sha> {
    if s.chain.Some? && s.plan.Some? && s.plan.value.chain == s.chain.value.id then
      s.plan.value.hits.Keys + s.plan.value.misses
    else {}
  }

  ghost predicate Precise(g: Content, s: State, live: set<Sha>, roots: set<Sha>) {
    && (forall x :: x in s.frontier ==> Led(g, live, roots, x))
    && (forall x :: x in Black(s) ==> Led(g, live, roots, x))
    && (forall x :: x in Held(s) ==> Led(g, live, roots, x))
    && (forall x, p :: MarkedCopy(s.db, s.marked, x, p) ==> Led(g, live, roots, x))
  }

  /** What a write queues on its own account: a push's targets, or a page. */
  function Queued(g: Content, s: State, a: Action): set<Sha> {
    match a
    case PushFeed(_, r) => Feeds(r)
    case PageFeed(p, c) => if p in s.pending then Page(g, s.db, p, s.pending[p], c) else {}
    case _ => {}
  }

  // ---- one write ----

  /** A mark's chain goes on. */
  predicate MarkChain(s: State) {
    s.chain.Some? && !s.chain.value.mode.Compact?
  }

  predicate GoesOn(s: State, t: State) {
    MarkChain(s) && t.chain.Some? && t.chain.value.id == s.chain.value.id
  }

  /** What the writes need to know of the tables. */
  ghost predicate Grounded(g: Content, s: State) {
    && (forall p :: p in s.db.rows ==> Ordinals(s.db.rows[p]))
    && (forall p :: p in s.marked && p in s.db.packs ==> !s.db.packs[p].state.Ingesting?)
    && (s.chain.Some? && s.chain.value.newPack.Some? ==> s.chain.value.newPack.value !in s.marked)
    && SpanOk(g, s)
  }

  lemma GroundedBy(g: Content, s: State)
    requires Inv(g, s) && s.chain.Some?
    ensures Grounded(g, s)
  {
    hide MarkOk, GenOk, PlanOk, TrustOk, QueueOk, BuildOk, ModeOk, BuiltWithin, SpanOk, RetireOk, PinsOk;
  }

  /** Nothing is queued, expanded or marked by this write. */
  ghost predicate Mild(s: State, t: State) {
    && MarkChain(t) && t.frontier.Keys <= s.frontier.Keys && Black(t) <= Black(s) && Held(t) <= Held(s)
    && forall x, p :: MarkedCopy(t.db, t.marked, x, p) ==> MarkedCopy(s.db, s.marked, x, p)
  }

  predicate MarkWork(a: Action) {
    a.PushFeed? || a.PageFeed? || a.PlanBatch? || a.FlushBits? || a.WriteSeen? || a.FeedKids?
  }

  lemma EnvMild(g: Content, s: State, a: Action, t: State)
    requires Grounded(g, s) && EnvFamily(g, s, a, t) && GoesOn(s, t)
    ensures Mild(s, t)
  {
    hide Tears, SpanOk;
  }

  lemma PlainMild(g: Content, s: State, a: Action, t: State)
    requires Grounded(g, s) && PlainFamily(g, s, a, t) && GoesOn(s, t)
    ensures Mild(s, t)
  {
    hide SpanOk, Alive;
  }

  lemma PushMild(g: Content, s: State, a: Action, t: State)
    requires Grounded(g, s) && PushFamily(g, s, a, t) && GoesOn(s, t) && !MarkWork(a)
    ensures Mild(s, t)
  {
    hide SpanOk, Alive;
  }

  lemma WalkMild(g: Content, s: State, a: Action, t: State)
    requires Grounded(g, s) && WalkFamily(g, s, a, t) && GoesOn(s, t) && !MarkWork(a)
    ensures Mild(s, t)
  {
    hide SpanOk, MarkRoot;
  }

  lemma PageMild(g: Content, s: State, a: Action, t: State)
    requires Grounded(g, s) && PageFamily(g, s, a, t) && GoesOn(s, t) && !MarkWork(a)
    ensures Mild(s, t)
  {
    hide SpanOk;
  }

  lemma BuildMild(g: Content, s: State, a: Action, t: State)
    requires Grounded(g, s) && BuildFamily(g, s, a, t) && GoesOn(s, t)
    ensures Mild(s, t)
  {
    hide SpanOk, Whole, BuiltSha, Exhausted, Placed, Ordinals;
  }

  lemma RetireMild(g: Content, s: State, a: Action, t: State)
    requires Grounded(g, s) && RetireFamily(g, s, a, t) && GoesOn(s, t)
    ensures Mild(s, t)
  {
    hide SpanOk, Whole, Lossy, FallbackPack;
  }

  lemma WipeMild(g: Content, s: State, a: Action, t: State)
    requires Grounded(g, s) && WipeFamily(g, s, a, t) && GoesOn(s, t)
    ensures Mild(s, t)
  {
    hide SpanOk, Whole;
  }

  lemma FinishMild(g: Content, s: State, a: Action, t: State)
    requires Grounded(g, s) && FinishFamily(g, s, a, t) && GoesOn(s, t)
    ensures Mild(s, t)
  {
    hide Exhausted, DedupMarks, SpanOk, Ordinals;
    NoCompaction(g, s, a, t);
  }

  lemma NoCompaction(g: Content, s: State, a: Action, t: State)
    requires SpanOk(g, s) && FinishFamily(g, s, a, t) && MarkChain(s)
    ensures a.SweepBump? || a.SweepDeadMark? || a.SweepDrop? || a.SweepEnd?
  {
    hide DedupMarks, Taken, StakedOk, Retiring, Emptied, Flushed, Kids, Page, BuiltSha, Whole;
  }

  lemma OthersMild(g: Content, s: State, a: Action, t: State)
    requires Grounded(g, s) && Step(g, s, a, t) && GoesOn(s, t) && !MarkWork(a)
    ensures Mild(s, t)
  {
    hide EnvFamily, PlainFamily, PushFamily, WalkFamily, PageFamily, BuildFamily, RetireFamily, WipeFamily,
      FinishFamily, Mild, Grounded, GoesOn;
    if EnvAction(a) { EnvMild(g, s, a, t); }
    else if PlainAction(a) { PlainMild(g, s, a, t); }
    else if PushAction(a) { PushMild(g, s, a, t); }
    else if WalkAction(a) { WalkMild(g, s, a, t); }
    else if PageAction(a) { PageMild(g, s, a, t); }
    else if BuildAction(a) { BuildMild(g, s, a, t); }
    else if RetireAction(a) { RetireMild(g, s, a, t); }
    else if WipeAction(a) { WipeMild(g, s, a, t); }
    else { FinishMild(g, s, a, t); }
  }

  lemma FedPrecise(g: Content, s: State, feed: set<Sha>, gen: nat, t: State, live: set<Sha>, roots: set<Sha>)
    requires Precise(g, s, live, roots) && forall x :: x in feed ==> Led(g, live, roots, x)
    requires t == s.(frontier := Upsert(s.frontier, feed, s.seen, gen), span := t.span)
    ensures Precise(g, t, live, roots)
  {
    hide Led;
  }

  lemma KidsPrecise(g: Content, s: State, kids: set<Sha>, t: State, live: set<Sha>, roots: set<Sha>)
    requires Inv(g, s) && Precise(g, s, live, roots) && LiveSet(s.db) <= live && FeedKidsStep(g, s, kids, t)
    ensures Precise(g, t, live, roots)
  {
    hide Inv, Led, Precise, Upsert;
    forall x | x in kids ensures Led(g, live, roots, x) {
      var y :| y in s.plan.value.hits && x in g.links(y);
      HitLed(g, s, y, live, roots);
      LedLink(g, live, roots, y, x);
    }
    FedPrecise(g, s, kids, s.plan.value.gen, t, live, roots);
  }

  lemma HitLed(g: Content, s: State, y: Sha, live: set<Sha>, roots: set<Sha>)
    requires Inv(g, s) && Precise(g, s, live, roots) && LiveSet(s.db) <= live
    requires s.span.SeenWritten? && s.plan.Some? && y in s.plan.value.hits
    ensures Led(g, live, roots, y) && y in live
  {
    hide MarkOk, GenOk, TablesOk, ChainOk, QueueOk, TrustOk, Led, Taken, StakedOk, Retiring, Emptied;
    assert LiveCopy(s.db, y, s.plan.value.hits[y]);
    assert Alive(s.db, y);
  }

  lemma FlushPrecise(g: Content, s: State, ids: set<Sha>, t: State, live: set<Sha>, roots: set<Sha>)
    requires Grounded(g, s) && Precise(g, s, live, roots) && FlushBitsStep(s, ids, t)
    ensures Precise(g, t, live, roots)
  {
    hide Led, SpanOk;
    forall x, p | MarkedCopy(t.db, t.marked, x, p) ensures Led(g, live, roots, x) {
      if !MarkedCopy(s.db, s.marked, x, p) {
        var y :| y in s.plan.value.hits && s.plan.value.hits[y] == p && Copy(s.db, y, p)
          && s.db.rows[p][y] == s.db.rows[p][x];
        assert y in Held(s);
      }
    }
  }

  lemma SeenPrecise(g: Content, s: State, t: State, live: set<Sha>, roots: set<Sha>)
    requires Grounded(g, s) && Precise(g, s, live, roots) && WriteSeenStep(s, t)
    ensures Precise(g, t, live, roots)
  {
    hide Led, Ordinals, Taken, StakedOk, Retiring, Emptied;
    assert s.span.ids <= Held(s);
  }

  lemma PlanPrecise(g: Content, s: State, pl: Plan, t: State, live: set<Sha>, roots: set<Sha>)
    requires Precise(g, s, live, roots) && PlanBatchStep(s, pl, t)
    ensures Precise(g, t, live, roots)
  {
    hide Led, Alive;
  }

  lemma QueuedPrecise(g: Content, s: State, a: Action, t: State, live: set<Sha>, roots: set<Sha>)
    requires Step(g, s, a, t) && (a.PushFeed? || a.PageFeed?)
    requires Precise(g, s, live, roots) && Queued(g, s, a) <= roots
    ensures Precise(g, t, live, roots)
  {
    hide Led, Precise, Upsert, Alive, Page;
    forall x | x in Queued(g, s, a) ensures Led(g, live, roots, x) { LedRoot(g, live, roots, x); }
    FedPrecise(g, s, Queued(g, s, a), 1, t, live, roots);
  }

  /** No write of the chain marks, expands or queues anything else. */
  lemma StepPrecise(g: Content, s: State, a: Action, t: State, live: set<Sha>, roots: set<Sha>)
    requires Inv(g, s) && Step(g, s, a, t) && GoesOn(s, t)
    requires Precise(g, s, live, roots) && LiveSet(s.db) <= live && Queued(g, s, a) <= roots
    ensures Precise(g, t, live, roots) && MarkChain(t)
  {
    hide EnvFamily, PlainFamily, PushFamily, PageFamily, BuildFamily, RetireFamily, WipeFamily, FinishFamily, Inv, Led,
      Precise, Grounded, FlushBitsStep, WriteSeenStep, FeedKidsStep, PlanBatchStep;
    GroundedBy(g, s);
    if !MarkWork(a) {
      OthersMild(g, s, a, t);
      MildPrecise(g, s, t, live, roots);
    } else {
      MarkingGoesOn(g, s, a, t);
      if a.PlanBatch? { PlanPrecise(g, s, a.plan, t, live, roots); }
      else if a.FlushBits? { FlushPrecise(g, s, a.ids, t, live, roots); }
      else if a.WriteSeen? { SeenPrecise(g, s, t, live, roots); }
      else if a.FeedKids? { KidsPrecise(g, s, a.kids, t, live, roots); }
      else { QueuedPrecise(g, s, a, t, live, roots); }
    }
  }

  lemma MarkingGoesOn(g: Content, s: State, a: Action, t: State)
    requires Step(g, s, a, t) && MarkWork(a)
    ensures t.chain == s.chain
  {
    hide EnvFamily, PlainFamily, BuildFamily, RetireFamily, WipeFamily, FinishFamily, Upsert, Alive, Page,
      HitBits, Kids, Whole;
  }

  lemma MildPrecise(g: Content, s: State, t: State, live: set<Sha>, roots: set<Sha>)
    requires Precise(g, s, live, roots) && Mild(s, t)
    ensures Precise(g, t, live, roots)
  {
    hide Led, MarkedCopy;
  }

  // ---- runs ----

  /** What pushes fed and pages queued between i and j. */
  function Fed(g: Content, states: seq<State>, acts: seq<Action>, i: nat, j: nat): set<Sha>
    requires i <= j <= |acts| && |states| == |acts| + 1
  {
    if i == j then {} else Fed(g, states, acts, i, j - 1) + Queued(g, states[j - 1], acts[j - 1])
  }

  /** What was live at some time between i and j. */
  function Lived(states: seq<State>, i: nat, j: nat): set<Sha>
    requires i <= j < |states|
  {
    LiveSet(states[j].db) + if i == j then {} else Lived(states, i, j - 1)
  }

  /** One chain stands all along. */
  ghost predicate Stands(states: seq<State>, i: nat, j: nat) {
    forall k {:trigger states[k]} :: i <= k <= j && k < |states| ==>
      && states[k].chain.Some? && states[i].chain.Some?
      && states[k].chain.value.id == states[i].chain.value.id
  }

  lemma BeginPrecise(g: Content, s: State, t: State, live: set<Sha>)
    requires InitMarkStep(g, s, t)
    ensures MarkChain(t) && Precise(g, t, live, t.chain.value.snapRoots)
  {
    hide Led, MarkRoot;
    forall x | x in t.frontier ensures Led(g, live, t.chain.value.snapRoots, x) {
      LedRoot(g, live, t.chain.value.snapRoots, x);
    }
  }

  lemma RunAt(g: Content, states: seq<State>, acts: seq<Action>, k: nat)
    requires RunFrom(g, states, acts) && k + 1 < |states|
    ensures |states| == |acts| + 1 && Inv(g, states[k]) && Step(g, states[k], acts[k], states[k + 1])
  {
    hide Inv, Step, Start;
    RunInvariant(g, states, acts, k);
    assert StepAt(g, states, acts, k);
  }

  /** From a mark's first write on and as long as its chain stands, everything is led from what
      was seeded then, fed by pushes or queued by pages. */
  lemma {:induction false} MarkLed(g: Content, states: seq<State>, acts: seq<Action>, i: nat, j: nat)
    requires RunFrom(g, states, acts) && 0 < i <= j < |states| && acts[i - 1].InitMark? && Stands(states, i, j)
    ensures MarkChain(states[j])
    ensures Precise(g, states[j], Lived(states, i, j), states[i].chain.value.snapRoots + Fed(g, states, acts, i, j))
    decreases j
  {
    hide RunFrom, Inv, Step, Precise, Led, Queued;
    var roots := states[i].chain.value.snapRoots;
    RunAt(g, states, acts, j - 1);
    if i == j {
      Begun(g, states[i - 1], acts[i - 1], states[i], Lived(states, i, j));
      assert roots + {} == roots;
    } else {
      MarkLed(g, states, acts, i, j - 1);
      var s, a, t := states[j - 1], acts[j - 1], states[j];
      var live, more := Lived(states, i, j), roots + Fed(g, states, acts, i, j);
      MorePrecise(g, s, Lived(states, i, j - 1), roots + Fed(g, states, acts, i, j - 1), live, more);
      StepPrecise(g, s, a, t, live, more);
    }
  }

  lemma Begun(g: Content, s: State, a: Action, t: State, live: set<Sha>)
    requires Step(g, s, a, t) && a.InitMark?
    ensures MarkChain(t) && Precise(g, t, live, t.chain.value.snapRoots)
  {
    hide InitMarkStep, Precise;
    BeginPrecise(g, s, t, live);
  }

  lemma MorePrecise(g: Content, s: State, live: set<Sha>, roots: set<Sha>, more: set<Sha>, further: set<Sha>)
    requires Precise(g, s, live, roots) && live <= more && roots <= further
    ensures Precise(g, s, more, further)
  {
    hide Led;
    LedMore(g, live, roots, more, further);
  }

  // ---- the reasons ----

  /** A root by the tables the mark finds: a ref's target or peeled target, a pin, or a non-blob
      with a row in a live pack outside the cohort. */
  ghost predicate Rooted(g: Content, s: State, x: Sha) {
    || (exists n :: n in s.refs && (s.refs[n].target == x || s.refs[n].peeled == Some(x)))
    || (exists n :: n in s.pins && s.pins[n] == x)
    || (!g.kind(x).Blob? && exists p :: p !in s.marked && LiveCopy(s.db, x, p))
  }

  /** A push feeds x as its target or peeled target, or a page takes x from a pack that a push
      brought. */
  ghost predicate FedBy(g: Content, s: State, a: Action, x: Sha) {
    || (a.PushFeed? && (a.ref.target == x || a.ref.peeled == Some(x)))
    || (a.PageFeed? && a.pack in s.pending && !g.kind(x).Blob? && LiveCopy(s.db, x, a.pack))
  }

  ghost predicate FedAt(g: Content, states: seq<State>, acts: seq<Action>, k: int, x: Sha) {
    0 <= k < |acts| && k < |states| && FedBy(g, states[k], acts[k], x)
  }

  /** A reason to walk from x: it was a root just before mark start, or was fed since. */
  ghost predicate Reason(g: Content, states: seq<State>, acts: seq<Action>, i: nat, j: nat, x: Sha) {
    || (0 < i <= |states| && Rooted(g, states[i - 1], x))
    || exists k :: i <= k < j && FedAt(g, states, acts, k, x)
  }

  /** x is reachable from such an object through objects that were live in the meantime. */
  ghost predicate Owed(g: Content, states: seq<State>, acts: seq<Action>, i: nat, j: nat, x: Sha)
    requires i <= j < |states|
  {
    exists p :: PathTo(g, Lived(states, i, j), p, x) && Reason(g, states, acts, i, j, p[0])
  }

  lemma SeededRooted(g: Content, s: State, a: Action, t: State, x: Sha)
    requires Step(g, s, a, t) && a.InitMark? && x in t.chain.value.snapRoots
    ensures Rooted(g, s, x)
  {
    hide EnvFamily, PlainFamily, PushFamily, PageFamily, BuildFamily, RetireFamily, WipeFamily, FinishFamily;
    assert MarkRoot(g, s, x);
    if Outer(s.db, s.marked, x) && !RefRoot(s.refs, s.pins, x) {
      var p :| OuterCopy(s.db, s.marked, x, p);
    }
  }

  lemma QueuedFed(g: Content, s: State, a: Action, t: State, x: Sha)
    requires Step(g, s, a, t) && x in Queued(g, s, a)
    ensures FedBy(g, s, a, x)
  {
    hide EnvFamily, PlainFamily, WalkFamily, BuildFamily, RetireFamily, WipeFamily, FinishFamily, Upsert, Alive;
  }

  lemma {:induction false} FedSome(g: Content, states: seq<State>, acts: seq<Action>, i: nat, j: nat, x: Sha)
    requires Run(g, states, acts) && i <= j <= |acts| && x in Fed(g, states, acts, i, j)
    ensures exists k :: i <= k < j && FedAt(g, states, acts, k, x)
    decreases j
  {
    hide Step, Queued, FedBy;
    if x in Queued(g, states[j - 1], acts[j - 1]) {
      assert StepAt(g, states, acts, j - 1);
      QueuedFed(g, states[j - 1], acts[j - 1], states[j], x);
      assert FedAt(g, states, acts, j - 1, x);
    } else {
      FedSome(g, states, acts, i, j - 1, x);
    }
  }

  lemma LedOwed(g: Content, states: seq<State>, acts: seq<Action>, i: nat, j: nat, x: Sha)
    requires RunFrom(g, states, acts) && 0 < i <= j < |states| && acts[i - 1].InitMark? && Stands(states, i, j)
    requires Led(g, Lived(states, i, j), states[i].chain.value.snapRoots + Fed(g, states, acts, i, j), x)
    ensures Owed(g, states, acts, i, j, x)
  {
    hide Step, Start, Rooted, Fed, Lived;
    var p :| PathTo(g, Lived(states, i, j), p, x)
      && p[0] in states[i].chain.value.snapRoots + Fed(g, states, acts, i, j);
    if p[0] in states[i].chain.value.snapRoots {
      assert StepAt(g, states, acts, i - 1);
      SeededRooted(g, states[i - 1], acts[i - 1], states[i], p[0]);
    } else {
      FedSome(g, states, acts, i, j, p[0]);
    }
    assert Reason(g, states, acts, i, j, p[0]);
  }

  /** Queued, expanded, or marked in some cohort pack. */
  ghost predicate Touched(s: State, x: Sha) {
    x in s.frontier || x in Black(s) || exists p :: MarkedCopy(s.db, s.marked, x, p)
  }

  /** In any run, from a mark's first write on and as long as its chain stands, every frontier
      row, every expanded id and every set bit is of an object that is owed. */
  lemma MarkPrecise(g: Content, states: seq<State>, acts: seq<Action>, i: nat, j: nat, x: Sha)
    requires RunFrom(g, states, acts) && 0 < i <= j < |states| && acts[i - 1].InitMark? && Stands(states, i, j)
    ensures Touched(states[j], x) ==> Owed(g, states, acts, i, j, x)
  {
    hide RunFrom, Led, Owed, Fed, Lived, MarkedCopy;
    MarkLed(g, states, acts, i, j);
    if Touched(states[j], x) { LedOwed(g, states, acts, i, j, x); }
  }

  // ---- garbage goes ----

  /** What a build copies is marked. */
  lemma BuiltMarked(g: Content, s: State, n: PackId, x: Sha)
    requires Inv(g, s) && s.chain.Some? && s.chain.value.newPack == Some(n) && Whole(s.db, s.marked) && Copy(s.db, x, n)
    ensures exists p :: MarkedCopy(s.db, s.marked, x, p)
  {
    hide MarkOk, GenOk, PlanOk, SpanOk, TrustOk, QueueOk, CohortOk, ModeOk, RetireOk, TablesOk;
    var p :| BuiltCopy(s.db, s.marked, x, p);
    assert MarkedCopy(s.db, s.marked, x, p);
  }

  lemma RetiringWhole(g: Content, s: State, a: Action, t: State)
    requires Inv(g, s) && Step(g, s, a, t) && a.DeadMark?
    ensures Whole(s.db, s.marked)
  {
    hide Inv, Whole, Turn;
    AtDeadMark(g, s, t);
  }

  /** What survives a retirement is owed, or still has a live copy apart from the build pack:
      the build pack keeps no garbage. */
  lemma GarbageCollected(g: Content, states: seq<State>, acts: seq<Action>, i: nat, j: nat, x: Sha)
    requires RunFrom(g, states, acts) && 0 < i <= j < |acts| && acts[i - 1].InitMark? && Stands(states, i, j)
    requires Retires(acts[j]) && (acts[j].DeadMark? || Whole(states[j].db, states[j].marked))
    requires Alive(states[j + 1].db, x)
    ensures
      || Owed(g, states, acts, i, j, x)
      || exists p :: LiveCopy(states[j + 1].db, x, p) && states[j].chain.value.newPack != Some(p)
  {
    hide Inv, Step, Start, Owed, MarkedCopy;
    var s, t := states[j], states[j + 1];
    var p :| LiveCopy(t.db, x, p);
    if s.chain.value.newPack == Some(p) {
      RunInvariant(g, states, acts, j);
      assert StepAt(g, states, acts, j);
      DoomedTurned(g, s, acts[j], t);
      if acts[j].DeadMark? { RetiringWhole(g, s, acts[j], t); }
      BuiltMarked(g, s, p, x);
      MarkPrecise(g, states, acts, i, j, x);
    }
  }

  /** Which packs go: with no barrier the whole cohort, in a swap those of which every mark was
      copied. */
  ghost predicate Goes(s: State, a: Action, p: PackId) {
    p in s.marked && (a.SweepDeadMark? || (s.marked[p].built.Some? && s.marked[p].bitmap <= s.marked[p].built.value))
  }

  lemma GoesDoomed(g: Content, s: State, a: Action, t: State, p: PackId)
    requires Inv(g, s) && Step(g, s, a, t) && Goes(s, a, p)
    requires a.SweepDeadMark? || (a.DeadMark? && !s.span.intent.fallback)
    ensures p in Doomed(s, a)
  {
    hide EnvFamily, PlainFamily, PushFamily, WalkFamily, PageFamily, BuildFamily, WipeFamily, Inv, Turn, Backed, Lossy;
    if a.DeadMark? { AtDeadMark(g, s, t); }
  }

  /** So an object that is owed nothing, and is live only in cohort packs that go and in the
      build pack, is dead after the sweep. */
  lemma UnreachableDies(g: Content, states: seq<State>, acts: seq<Action>, i: nat, j: nat, x: Sha)
    requires RunFrom(g, states, acts) && 0 < i <= j < |acts| && acts[i - 1].InitMark? && Stands(states, i, j)
    requires
      || (acts[j].SweepDeadMark? && Whole(states[j].db, states[j].marked))
      || (acts[j].DeadMark? && (states[j].span.Intended? || states[j].span.Bumped?) && !states[j].span.intent.fallback)
    requires forall p :: LiveCopy(states[j].db, x, p) ==>
      Goes(states[j], acts[j], p) || states[j].chain.value.newPack == Some(p)
    requires !Owed(g, states, acts, i, j, x)
    ensures !Alive(states[j + 1].db, x)
  {
    hide Inv, Step, Start, Owed, Goes, Doomed;
    var s, t := states[j], states[j + 1];
    if Alive(t.db, x) {
      GarbageCollected(g, states, acts, i, j, x);
      var p :| LiveCopy(t.db, x, p) && s.chain.value.newPack != Some(p);
      RunInvariant(g, states, acts, j);
      assert StepAt(g, states, acts, j);
      DoomedTurned(g, s, acts[j], t);
      assert LiveCopy(s.db, x, p);
      GoesDoomed(g, s, acts[j], t, p);
    }
  }
}
