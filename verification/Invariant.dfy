/** Every step keeps the whole invariant, so every run does. */
module Invariant {
  import opened Repository
  import opened Steps
  import opened Shape
  import opened Shaping
  import opened Marking
  import opened Generations

  ghost predicate Inv(g: Content, s: State) {
    ShapeOk(g, s) && MarkOk(g, s) && GenOk(g, s)
  }

  // ---- frames ----

  predicate SameMarks(s: State, t: State) {
    && t.db == s.db && t.refs == s.refs && t.pins == s.pins
    && t.marked == s.marked && t.frontier == s.frontier && t.seen == s.seen && t.pending == s.pending
  }

  /** Nothing the marking reads changed. */
  lemma MarkFrame(g: Content, s: State, t: State)
    requires MarkOk(g, s) && SameMarks(s, t) && Settled(t.span)
    requires Duty(t) ==> OnDuty(s) && Black(t) == Black(s) && (BarrierOn(t) ==> BarrierOn(s) || s.seen == {})
    ensures MarkOk(g, t)
  {
    hide LinksCovered, BitsQueued, BlackSafe, Covered, Outer;
    assert Undone(t) == t;
    if Duty(t) { assert forall x :: MarkRoot(g, t, x) <==> MarkRoot(g, s, x); }
  }

  lemma SnapSame(g: Content, c: Chain, d: Chain, f: map<Sha, nat>, seen: set<Sha>)
    requires d.snapRoots == c.snapRoots && d.snapLive == c.snapLive
    ensures SnapWalk(g, c, f, seen) ==> SnapWalk(g, d, f, seen)
    ensures SnapDone(g, c, seen) ==> SnapDone(g, d, seen)
  {
    assert forall x :: SnapReachable(g, d, x) ==> SnapReachable(g, c, x);
  }

  /** Nothing the generations read changed, and the plan is kept or dropped. */
  lemma GenFrame(g: Content, s: State, t: State)
    requires GenOk(g, s) && t.db == s.db && t.marked == s.marked && t.frontier == s.frontier && t.seen == s.seen
    requires Settled(t.span) && !t.span.KidsFed? && (t.span.InitStarted? ==> s.span.InitStarted?)
    requires BarrierOn(t) ==> BarrierOn(s) || s.span.InitStarted?
    requires s.chain.None? ==> t.chain.None?
    requires s.chain.Some? && t.chain.Some? ==>
      t.chain.value.snapRoots == s.chain.value.snapRoots && t.chain.value.snapLive == s.chain.value.snapLive
    requires t.plan == None || (t.plan == s.plan && t.chain == s.chain)
    ensures GenOk(g, t)
  {
    hide SnapWalk, SnapDone, AnyZero, Alive;
    UndoneWithin(s);
    if s.chain.Some? && t.chain.Some? { SnapSame(g, s.chain.value, t.chain.value, s.frontier, s.seen); }
  }

  lemma CohortKept(s: State, t: State)
    requires t.marked == s.marked && forall p :: p in s.marked && LivePack(t.db, p) ==> LivePack(s.db, p)
    ensures Whole(t.db, t.marked) ==> Whole(s.db, s.marked)
  {
  }

  /** Snapshot facts survive a change of the store that keeps live shas. */
  lemma StoreGen(g: Content, s: State, t: State)
    requires GenOk(g, s) && SameChain(s, t) && t == s.(db := t.db, chain := t.chain, plan := t.plan, span := t.span)
    requires Settled(s.span) && Settled(t.span) && !s.span.InitStarted? && !t.span.InitStarted? && !t.span.KidsFed?
    requires t.plan == None || t.plan == s.plan
    requires Whole(t.db, t.marked) ==> Whole(s.db, s.marked)
    requires BarrierOn(s) && Whole(s.db, s.marked) ==> forall x :: Alive(s.db, x) ==> Alive(t.db, x)
    ensures GenOk(g, t)
  {
    hide SnapWalk, SnapDone, AnyZero, Alive;
    if s.chain.Some? { SnapSame(g, s.chain.value, t.chain.value, s.frontier, s.seen); }
  }

  /** No snapshot is watched. */
  lemma NoGen(g: Content, t: State)
    requires !BarrierOn(t) && !t.span.InitStarted?
    ensures GenOk(g, t)
  {
  }

  lemma NoMark(g: Content, t: State)
    requires !Duty(t)
    ensures MarkOk(g, t)
  {
  }

  // ---- what the lemmas below read off the invariant ----

  lemma SpanOf(g: Content, s: State)
    requires ShapeOk(g, s)
    ensures SpanOk(g, s)
  {
    hide SpanOk;
  }

  lemma PinsKept(s: State, t: State)
    requires PinsOk(s.refs, s.pins) && exists n :: PinStep(s, n, t) || UnpinStep(s, n, t)
    ensures PinsOk(t.refs, t.pins)
  {
  }

  lemma LandPins(s: State, n: RefName, r: Ref)
    requires PinsOk(s.refs, s.pins) && n !in s.pins
    ensures PinsOk(s.refs[n := r], s.pins) && PinsOk(s.refs - {n}, s.pins)
  {
  }

  lemma BumpedMark(g: Content, s: State, t: State)
    requires MarkOk(g, s) && BumpVersionStep(s, t) && (s.chain.Some? ==> s.chain.value.rv <= s.rv)
    ensures MarkOk(g, t)
  {
    hide LinksCovered, BitsQueued, BlackSafe, Covered, Outer;
    if BarrierOn(t) { assert forall x :: MarkRoot(g, t, x) <==> MarkRoot(g, s, x); }
  }

  lemma BumpedGen(g: Content, s: State, t: State)
    requires GenOk(g, s) && BumpVersionStep(s, t)
    ensures GenOk(g, t)
  {
    hide SnapWalk, SnapDone, AnyZero, Alive;
  }

  lemma VersionOf(g: Content, s: State)
    requires ShapeOk(g, s) && s.chain.Some?
    ensures s.chain.value.rv <= s.rv
  {
    hide ChainOk, SpanOk, PlanOk, TrustOk, TablesOk;
  }

  lemma StopMark(g: Content, s: State, t: State)
    requires SpanOk(g, s) && MarkOk(g, s) && StopStep(s, t)
    ensures MarkOk(g, t)
  {
    hide LinksCovered, BitsQueued, BlackSafe, Covered, Outer, Trusted;
    if Duty(t) {
      assert Black(t) == Black(s);
      assert forall x :: MarkRoot(g, t, x) <==> MarkRoot(g, s, x);
    }
  }

  lemma StopGen(g: Content, s: State, t: State)
    requires GenOk(g, s) && StopStep(s, t)
    ensures GenOk(g, t)
  {
    hide SnapWalk, SnapDone, AnyZero, Alive, Trusted;
    UndoneWithin(s);
    if s.chain.Some? { SnapSame(g, s.chain.value, t.chain.value, s.frontier, s.seen); }
  }

  lemma PlainOpenMark(g: Content, t: State)
    requires t.span.PlainOpen?
    ensures MarkOk(g, t)
  {
  }

  lemma PlainGen(g: Content, s: State)
    requires ShapeOk(g, s) && s.span.PlainPromoted?
    ensures !BarrierOn(s)
  {
    hide ChainOk, PlanOk, TrustOk, TablesOk;
  }

  lemma PromoteFacts(g: Content, s: State, p: PackId)
    requires ShapeOk(g, s) && s.span == PendingWritten(p, true) && Promotable(s.db, p)
    ensures BarrierOn(s) && s.chain.value.done == {} && p !in s.marked && p in s.pending && s.pending[p] == -1
  {
    hide BuildOk, RetireOk, BuiltWithin, PlanOk, TrustOk, TablesOk;
  }

  lemma PromoteGen(g: Content, s: State, p: PackId, t: State)
    requires GenOk(g, s) && PushPromoteStep(s, p, t) && p !in s.marked
    ensures GenOk(g, t)
  {
    hide SnapWalk, SnapDone, AnyZero, Alive;
    PromoteUndone(s, p, t);
    CohortKept(s, t);
  }

  lemma GiveBackGen(g: Content, s: State, t: State)
    requires GenOk(g, s) && PushDemoteStep(s, t)
    ensures GenOk(g, t)
  {
    hide SnapWalk, SnapDone, AnyZero, Alive;
    CohortKept(s, t);
  }

  lemma ForgottenDead(g: Content, s: State)
    requires ShapeOk(g, s) && s.span.Demoted?
    ensures !LivePack(s.db, s.span.pack)
  {
    hide ChainOk, PlanOk, TrustOk, TablesOk;
  }

  lemma InitColours(g: Content, s: State, t: State)
    requires InitMarkStep(g, s, t)
    ensures MarkOk(g, t)
  {
    assert Black(t) == {} && Undone(t) == t;
    assert forall x :: MarkRoot(g, t, x) <==> MarkRoot(g, s, x);
  }

  lemma StampMark(g: Content, s: State, t: State)
    requires SpanOk(g, s) && MarkOk(g, s) && StampBarrierStep(s, t)
    ensures MarkOk(g, t)
  {
    hide Tricolour;
    MarkFrame(g, s, t);
  }

  lemma FlushGen(g: Content, s: State, ids: set<Sha>, t: State)
    requires GenOk(g, s) && FlushBitsStep(s, ids, t)
    ensures GenOk(g, t)
  {
    hide SnapWalk, SnapDone, AnyZero, Alive;
    assert t.marked.Keys == s.marked.Keys;
  }

  lemma SeenLives(g: Content, s: State)
    requires MarkOk(g, s) && OnDuty(s) && BarrierOn(s)
    ensures SeenAlive(s.db, s.seen)
  {
  }

  /** A chain whose cohort lost a pack owes nothing. */
  lemma BrokenOk(g: Content, t: State)
    requires !Whole(t.db, t.marked)
    ensures MarkOk(g, t) && GenOk(g, t)
  {
  }

  lemma DropSeenMark(g: Content, s: State, t: State)
    requires MarkOk(g, s) && DropSeenStep(s, t)
    ensures MarkOk(g, t)
  {
    hide LinksCovered, BitsQueued, BlackSafe, Covered, Outer;
    assert Black(t) == Black(s);
    if Duty(t) { assert forall x :: MarkRoot(g, t, x) <==> MarkRoot(g, s, x); }
  }

  lemma FreezeGen(g: Content, s: State, t: State)
    requires GenOk(g, s) && FreezeBuiltStep(s, t)
    ensures GenOk(g, t)
  {
    hide SnapWalk, SnapDone, AnyZero, Alive;
    assert t.marked.Keys == s.marked.Keys;
  }

  lemma NotOfCohort(g: Content, s: State)
    requires ShapeOk(g, s) && s.chain.Some? && s.chain.value.newPack.Some?
    ensures s.chain.value.newPack.value !in s.marked
  {
    hide BuildOk, RetireOk, BuiltWithin, CohortOk, ModeOk, PlanOk, TrustOk, TablesOk, SpanOk;
  }

  lemma RetiredBroken(g: Content, s: State, t: State)
    requires ShapeOk(g, s) && (DeadMarkStep(s, t) || DropRetiredStep(s, t))
    ensures !Whole(t.db, t.marked)
  {
    hide BuildOk, BuiltWithin, CohortOk, ModeOk, PlanOk, TrustOk, TablesOk, Valid;
    var p :| p in s.span.intent.ids;
    assert p in t.marked && !LivePack(t.db, p);
  }

  lemma SweptBroken(g: Content, s: State, t: State)
    requires ShapeOk(g, s) && (SweepDeadMarkStep(s, t) || SweepDropStep(s, t))
    ensures !Whole(t.db, t.marked)
  {
    hide BuildOk, BuiltWithin, ModeOk, PlanOk, TrustOk, TablesOk, Valid;
    var p :| p in s.marked;
    assert p in t.marked && !LivePack(t.db, p);
  }

  lemma DroppedBroken(s: State, drop: set<PackId>, t: State)
    requires WipeRetiredStep(s, drop, t) && drop != {}
    ensures !Whole(t.db, t.marked)
  {
    var p :| p in drop;
    assert p in t.marked && !LivePack(t.db, p);
  }

  // ---- requests and the janitor ----

  lemma IngestRowsKeeps(g: Content, s: State, p: PackId, count: nat, rows: map<Sha, nat>, t: State)
    requires Inv(g, s) && IngestRowsStep(s, p, count, rows, t)
    ensures Inv(g, t)
  {
    hide ShapeOk, MarkOk, GenOk, Alive;
    IngestRowsShape(g, s, p, count, rows, t);
    StoreMark(g, s, t);
    CohortKept(s, t);
    LiveKeptAlive(s.db, t.db);
    StoreGen(g, s, t);
  }

  lemma RejectKeeps(g: Content, s: State, p: PackId, t: State)
    requires Inv(g, s) && RejectStep(s, p, t)
    ensures Inv(g, t)
  {
    hide ShapeOk, MarkOk, GenOk, Alive;
    RejectShape(g, s, p, t);
    StoreMark(g, s, t);
    CohortKept(s, t);
    LiveKeptAlive(s.db, t.db);
    StoreGen(g, s, t);
  }

  lemma ReapKeeps(g: Content, s: State, p: PackId, t: State)
    requires Inv(g, s) && ReapStep(s, p, t)
    ensures Inv(g, t)
  {
    hide ShapeOk, MarkOk, GenOk, Alive;
    ReapShape(g, s, p, t);
    StoreMark(g, s, t);
    CohortKept(s, t);
    LiveKeptAlive(s.db, t.db);
    StoreGen(g, s, t);
  }

  lemma PinKeeps(g: Content, s: State, n: RefName, t: State)
    requires Inv(g, s) && PinStep(s, n, t)
    ensures Inv(g, t)
  {
    hide MarkOk, GenOk, ChainOk, PlanOk, TrustOk;
    PinsKept(s, t);
    PinShape(g, s, t);
    forall x | RefRoot(t.refs, t.pins, x) ensures RefRoot(s.refs, s.pins, x) {}
    PinMark(g, s, t);
    GenFrame(g, s, t);
  }

  lemma UnpinKeeps(g: Content, s: State, n: RefName, t: State)
    requires Inv(g, s) && UnpinStep(s, n, t)
    ensures Inv(g, t)
  {
    hide MarkOk, GenOk, ChainOk, PlanOk, TrustOk;
    PinsKept(s, t);
    PinShape(g, s, t);
    forall x | RefRoot(t.refs, t.pins, x) ensures RefRoot(s.refs, s.pins, x) {}
    PinMark(g, s, t);
    GenFrame(g, s, t);
  }

  lemma BumpVersionKeeps(g: Content, s: State, t: State)
    requires Inv(g, s) && BumpVersionStep(s, t)
    ensures Inv(g, t)
  {
    hide ShapeOk, MarkOk, GenOk;
    BumpVersionShape(g, s, t);
    if s.chain.Some? { VersionOf(g, s); }
    BumpedMark(g, s, t);
    BumpedGen(g, s, t);
  }

  lemma StopKeeps(g: Content, s: State, t: State)
    requires Inv(g, s) && StopStep(s, t)
    ensures Inv(g, t)
  {
    hide ShapeOk, MarkOk, GenOk, Tears;
    StopShape(g, s, t);
    SpanOf(g, s);
    StopMark(g, s, t);
    StopGen(g, s, t);
  }

  lemma ScratchKeeps(g: Content, s: State, t: State)
    requires Inv(g, s) && ScratchStep(s, t)
    ensures Inv(g, t)
  {
    hide ShapeOk, MarkOk, GenOk;
    ScratchShape(g, s, t);
    NoMark(g, t);
    NoGen(g, t);
  }

  // ---- pushes ----

  lemma PlainPromoteKeeps(g: Content, s: State, p: PackId, t: State)
    requires Inv(g, s) && PlainPromoteStep(s, p, t)
    ensures Inv(g, t)
  {
    hide MarkOk, GenOk, ChainOk, PlanOk, TrustOk, TablesOk, SpanOk;
    PlainPromoteShape(g, s, p, t);
    if s.chain.Some? { Foreign(s, p); }
    PlainPromoteMark(g, s, p, t);
    NoGen(g, t);
  }

  lemma PlainDemoteKeeps(g: Content, s: State, t: State)
    requires Inv(g, s) && PlainDemoteStep(s, t)
    ensures Inv(g, t)
  {
    hide ShapeOk, MarkOk, GenOk;
    PlainDemoteShape(g, s, t);
    GiveBackMark(g, s, t);
    PlainGen(g, s);
    NoGen(g, t);
  }

  lemma PlainLandKeeps(g: Content, s: State, n: RefName, r: Ref, t: State)
    requires Inv(g, s) && PlainLandStep(s, n, r, t)
    ensures Inv(g, t)
  {
    hide MarkOk, GenOk, ChainOk, PlanOk, TrustOk, SpanOk;
    LandPins(s, n, r);
    PlainRefsShape(g, s, t);
    PlainOpenMark(g, t);
    NoGen(g, t);
  }

  lemma PlainDeleteKeeps(g: Content, s: State, n: RefName, t: State)
    requires Inv(g, s) && PlainDeleteStep(s, n, t)
    ensures Inv(g, t)
  {
    hide MarkOk, GenOk, ChainOk, PlanOk, TrustOk, SpanOk;
    LandPins(s, n, Ref(Sha(""), None));
    PlainRefsShape(g, s, t);
    PlainOpenMark(g, t);
    NoGen(g, t);
  }

  lemma PushPendingKeeps(g: Content, s: State, p: PackId, t: State)
    requires Inv(g, s) && PushPendingStep(s, p, t)
    ensures Inv(g, t)
  {
    hide ShapeOk, MarkOk, GenOk;
    PushPendingShape(g, s, p, t);
    PushPendingMark(g, s, p, t);
    GenFrame(g, s, t);
  }

  lemma PushPromoteKeeps(g: Content, s: State, p: PackId, t: State)
    requires Inv(g, s) && PushPromoteStep(s, p, t)
    ensures Inv(g, t)
  {
    hide ShapeOk, MarkOk, GenOk;
    PushPromoteShape(g, s, p, t);
    PromoteFacts(g, s, p);
    PushPromoteMark(g, s, p, t);
    PromoteGen(g, s, p, t);
  }

  lemma PushDemoteKeeps(g: Content, s: State, t: State)
    requires Inv(g, s) && PushDemoteStep(s, t)
    ensures Inv(g, t)
  {
    hide ShapeOk, MarkOk, GenOk;
    PushDemoteShape(g, s, t);
    GiveBackMark(g, s, t);
    GiveBackGen(g, s, t);
  }

  lemma PushForgetKeeps(g: Content, s: State, t: State)
    requires Inv(g, s) && PushForgetStep(s, t)
    ensures Inv(g, t)
  {
    hide ShapeOk, MarkOk, GenOk;
    PushForgetShape(g, s, t);
    ForgottenDead(g, s);
    assert forall x, q :: PendingCopy(s.db, s.pending, x, q) ==> PendingCopy(t.db, t.pending, x, q);
    DropPendingMark(g, s, t);
    GenFrame(g, s, t);
  }

  lemma PushFeedKeeps(g: Content, s: State, n: RefName, r: Ref, t: State)
    requires Inv(g, s) && PushFeedStep(s, n, r, t)
    ensures Inv(g, t)
  {
    hide ShapeOk, MarkOk, GenOk;
    PushFeedShape(g, s, n, r, t);
    QueueMark(g, s, Feeds(r), 1, t);
    UndoneWithin(s);
    LateFeed(g, s, Feeds(r), t);
  }

  lemma PushLandKeeps(g: Content, s: State, t: State)
    requires Inv(g, s) && PushLandStep(s, t)
    ensures Inv(g, t)
  {
    hide ShapeOk, MarkOk, GenOk;
    PushLandShape(g, s, t);
    SpanOf(g, s);
    PushLandMark(g, s, t);
    GenFrame(g, s, t);
  }

  lemma PushDeleteKeeps(g: Content, s: State, n: RefName, t: State)
    requires Inv(g, s) && PushDeleteStep(s, n, t)
    ensures Inv(g, t)
  {
    hide ShapeOk, MarkOk, GenOk;
    PushDeleteShape(g, s, n, t);
    PushDeleteMark(g, s, n, t);
    GenFrame(g, s, t);
  }

  // ---- the walk ----

  lemma InitMarkKeeps(g: Content, s: State, t: State)
    requires Inv(g, s) && InitMarkStep(g, s, t)
    ensures Inv(g, t)
  {
    hide ShapeOk, MarkOk, GenOk;
    InitMarkShape(g, s, t);
    InitColours(g, s, t);
    InitGen(g, s, t);
  }

  lemma StampBarrierKeeps(g: Content, s: State, t: State)
    requires Inv(g, s) && StampBarrierStep(s, t)
    ensures Inv(g, t)
  {
    hide ShapeOk, MarkOk, GenOk;
    StampBarrierShape(g, s, t);
    SpanOf(g, s);
    StampMark(g, s, t);
    GenFrame(g, s, t);
  }

  lemma PlanBatchKeeps(g: Content, s: State, pl: Plan, t: State)
    requires Inv(g, s) && PlanBatchStep(s, pl, t)
    ensures Inv(g, t)
  {
    hide ShapeOk, MarkOk, GenOk;
    PlanBatchShape(g, s, pl, t);
    MarkFrame(g, s, t);
    PlanBatchGen(g, s, pl, t);
  }

  lemma FlushBitsKeeps(g: Content, s: State, ids: set<Sha>, t: State)
    requires Inv(g, s) && FlushBitsStep(s, ids, t)
    ensures Inv(g, t)
  {
    hide MarkOk, GenOk, ChainOk, PlanOk, TrustOk, SpanOk, QueueOk;
    FlushBitsShape(g, s, ids, t);
    FlushBitsMark(g, s, ids, t);
    FlushGen(g, s, ids, t);
  }

  lemma WriteSeenKeeps(g: Content, s: State, t: State)
    requires Inv(g, s) && WriteSeenStep(s, t)
    ensures Inv(g, t)
  {
    hide MarkOk, GenOk, ChainOk, PlanOk, TrustOk, SpanOk, QueueOk;
    WriteSeenShape(g, s, t);
    WriteSeenMark(g, s, t);
    if BarrierOn(s) { WriteSeenGen(g, s, t); } else { NoGen(g, t); }
  }

  lemma FeedKidsKeeps(g: Content, s: State, kids: set<Sha>, t: State)
    requires Inv(g, s) && FeedKidsStep(g, s, kids, t)
    ensures Inv(g, t)
  {
    hide MarkOk, GenOk, ChainOk, PlanOk, TrustOk, SpanOk, QueueOk;
    FeedKidsShape(g, s, kids, t);
    QueueMark(g, s, kids, s.plan.value.gen, t);
    if BarrierOn(s) { FeedKidsGen(g, s, kids, t); } else { NoGen(g, t); }
  }

  lemma DropExpandedKeeps(g: Content, s: State, t: State)
    requires Inv(g, s) && DropExpandedStep(s, t)
    ensures Inv(g, t)
  {
    hide MarkOk, GenOk, ChainOk, PlanOk, TrustOk, SpanOk, QueueOk;
    DropExpandedShape(g, s, t);
    DropExpandedMark(g, s, t);
    if BarrierOn(s) { DropExpandedGen(g, s, t); } else { NoGen(g, t); }
  }

  lemma DropMissesKeeps(g: Content, s: State, misses: set<Sha>, t: State)
    requires Inv(g, s) && DropMissesStep(s, misses, t)
    ensures Inv(g, t)
  {
    hide MarkOk, GenOk, ChainOk, PlanOk, TrustOk, SpanOk, QueueOk;
    DropMissesShape(g, s, misses, t);
    DropMissesMark(g, s, misses, t);
    if OnDuty(s) {
      SeenLives(g, s);
      DropMissesGen(g, s, misses, t);
    } else {
      BrokenOk(g, t);
    }
  }

  // ---- pages and the hand-over ----

  lemma PageFeedKeeps(g: Content, s: State, p: PackId, cursor: int, t: State)
    requires Inv(g, s) && PageFeedStep(g, s, p, cursor, t)
    ensures Inv(g, t)
  {
    hide ShapeOk, MarkOk, GenOk;
    PageFeedShape(g, s, p, cursor, t);
    QueueMark(g, s, Page(g, s.db, p, s.pending[p], cursor), 1, t);
    LateFeed(g, s, Page(g, s.db, p, s.pending[p], cursor), t);
  }

  lemma PageMoveKeeps(g: Content, s: State, t: State)
    requires Inv(g, s) && PageMoveStep(s, t)
    ensures Inv(g, t)
  {
    hide ShapeOk, MarkOk, GenOk;
    PageMoveShape(g, s, t);
    SpanOf(g, s);
    PageMoveMark(g, s, t);
    GenFrame(g, s, t);
  }

  lemma PageDoneKeeps(g: Content, s: State, t: State)
    requires Inv(g, s) && PageDoneStep(s, t)
    ensures Inv(g, t)
  {
    hide ShapeOk, MarkOk, GenOk;
    PageDoneShape(g, s, t);
    SpanOf(g, s);
    PageDoneMark(g, s, t);
    GenFrame(g, s, t);
  }

  lemma DropPendingKeeps(g: Content, s: State, t: State)
    requires Inv(g, s) && DropPendingStep(s, t)
    ensures Inv(g, t)
  {
    hide ShapeOk, MarkOk, GenOk;
    DropPendingShape(g, s, t);
    assert forall x, q :: PendingCopy(s.db, s.pending, x, q) ==> PendingCopy(t.db, t.pending, x, q);
    DropPendingMark(g, s, t);
    GenFrame(g, s, t);
  }

  lemma DropSeenKeeps(g: Content, s: State, t: State)
    requires Inv(g, s) && DropSeenStep(s, t)
    ensures Inv(g, t)
  {
    hide ShapeOk, MarkOk, GenOk;
    DropSeenShape(g, s, t);
    DropSeenMark(g, s, t);
    NoGen(g, t);
  }

  lemma HandoffKeeps(g: Content, s: State, t: State)
    requires Inv(g, s) && HandoffStep(s, t)
    ensures Inv(g, t)
  {
    hide ShapeOk, MarkOk, GenOk;
    HandoffShape(g, s, t);
    MarkFrame(g, s, t);
    GenFrame(g, s, t);
  }

  // ---- the build ----

  lemma FreezeBuiltKeeps(g: Content, s: State, t: State)
    requires Inv(g, s) && FreezeBuiltStep(s, t)
    ensures Inv(g, t)
  {
    hide ShapeOk, MarkOk, GenOk;
    FreezeBuiltShape(g, s, t);
    FreezeMark(g, s, t);
    FreezeGen(g, s, t);
  }

  lemma StakePackKeeps(g: Content, s: State, n: PackId, t: State)
    requires Inv(g, s) && StakePackStep(s, n, t)
    ensures Inv(g, t)
  {
    hide ShapeOk, MarkOk, GenOk, Alive;
    StakePackShape(g, s, n, t);
    StoreMark(g, s, t);
    LiveKeptAlive(s.db, t.db);
    StoreGen(g, s, t);
  }

  lemma NamePackKeeps(g: Content, s: State, t: State)
    requires Inv(g, s) && NamePackStep(s, t)
    ensures Inv(g, t)
  {
    hide ShapeOk, MarkOk, GenOk;
    NamePackShape(g, s, t);
    MarkFrame(g, s, t);
    StoreGen(g, s, t);
  }

  lemma OpenPosKeeps(g: Content, s: State, t: State)
    requires Inv(g, s) && OpenPosStep(s, t)
    ensures Inv(g, t)
  {
    hide ShapeOk, MarkOk, GenOk;
    OpenPosShape(g, s, t);
    MarkFrame(g, s, t);
    StoreGen(g, s, t);
  }

  lemma BuildRowsKeeps(g: Content, s: State, rows: map<Sha, nat>, t: State)
    requires Inv(g, s) && BuildRowsStep(s, rows, t)
    ensures Inv(g, t)
  {
    hide ShapeOk, MarkOk, GenOk, Alive;
    BuildRowsShape(g, s, rows, t);
    StoreMark(g, s, t);
    LiveKeptAlive(s.db, t.db);
    StoreGen(g, s, t);
  }

  lemma ClaimKeeps(g: Content, s: State, claims: set<Sha>, t: State)
    requires Inv(g, s) && ClaimStep(s, claims, t)
    ensures Inv(g, t)
  {
    hide ShapeOk, MarkOk, GenOk;
    ClaimShape(g, s, claims, t);
    MarkFrame(g, s, t);
    StoreGen(g, s, t);
  }

  lemma FlipLiveKeeps(g: Content, s: State, count: nat, t: State)
    requires Inv(g, s) && FlipLiveStep(s, count, t)
    ensures Inv(g, t)
  {
    hide ShapeOk, MarkOk, GenOk, Alive, BuiltSha;
    FlipLiveShape(g, s, count, t);
    FlipLiveMark(g, s, count, t);
    NotOfCohort(g, s);
    LiveKeptAlive(s.db, t.db);
    StoreGen(g, s, t);
  }

  lemma PublishSweepKeeps(g: Content, s: State, t: State)
    requires Inv(g, s) && PublishSweepStep(s, t)
    ensures Inv(g, t)
  {
    hide ShapeOk, MarkOk, GenOk;
    PublishSweepShape(g, s, t);
    MarkFrame(g, s, t);
    GenFrame(g, s, t);
  }

  lemma PublishEmptyKeeps(g: Content, s: State, t: State)
    requires Inv(g, s) && PublishEmptyStep(s, t)
    ensures Inv(g, t)
  {
    hide ShapeOk, MarkOk, GenOk;
    PublishEmptyShape(g, s, t);
    MarkFrame(g, s, t);
    GenFrame(g, s, t);
  }

  // ---- the barrier sweep ----

  lemma RecordSwapKeeps(g: Content, s: State, t: State)
    requires Inv(g, s) && RecordSwapStep(s, t)
    ensures Inv(g, t)
  {
    hide ShapeOk, MarkOk, GenOk;
    RecordSwapShape(g, s, t);
    MarkFrame(g, s, t);
    GenFrame(g, s, t);
  }

  lemma RecordFallbackKeeps(g: Content, s: State, ids: set<PackId>, t: State)
    requires Inv(g, s) && RecordFallbackStep(s, ids, t)
    ensures Inv(g, t)
  {
    hide ShapeOk, MarkOk, GenOk, FallbackPack;
    RecordFallbackShape(g, s, ids, t);
    MarkFrame(g, s, t);
    GenFrame(g, s, t);
  }

  lemma BumpEpochKeeps(g: Content, s: State, t: State)
    requires Inv(g, s) && BumpEpochStep(s, t)
    ensures Inv(g, t)
  {
    hide ShapeOk, MarkOk, GenOk;
    BumpEpochShape(g, s, t);
    MarkFrame(g, s, t);
    GenFrame(g, s, t);
  }

  lemma DeadMarkKeeps(g: Content, s: State, t: State)
    requires Inv(g, s) && DeadMarkStep(s, t)
    ensures Inv(g, t)
  {
    hide ShapeOk, MarkOk, GenOk;
    DeadMarkShape(g, s, t);
    RetiredBroken(g, s, t);
    BrokenOk(g, t);
  }

  lemma DropRetiredKeeps(g: Content, s: State, t: State)
    requires Inv(g, s) && DropRetiredStep(s, t)
    ensures Inv(g, t)
  {
    hide ShapeOk, MarkOk, GenOk;
    DropRetiredShape(g, s, t);
    RetiredBroken(g, s, t);
    BrokenOk(g, t);
  }

  lemma EndChainKeeps(g: Content, s: State, t: State)
    requires Inv(g, s) && EndChainStep(s, t)
    ensures Inv(g, t)
  {
    hide ShapeOk, MarkOk, GenOk;
    EndedShape(g, s, t);
    NoMark(g, t);
    NoGen(g, t);
  }

  lemma ResumeLiveKeeps(g: Content, s: State, t: State)
    requires Inv(g, s) && ResumeLiveStep(s, t)
    ensures Inv(g, t)
  {
    hide ShapeOk, MarkOk, GenOk;
    ResumeLiveShape(g, s, t);
    MarkFrame(g, s, t);
    GenFrame(g, s, t);
  }

  lemma ResumeDeadKeeps(g: Content, s: State, t: State)
    requires Inv(g, s) && ResumeDeadStep(s, t)
    ensures Inv(g, t)
  {
    hide ShapeOk, MarkOk, GenOk;
    ResumeDeadShape(g, s, t);
    MarkFrame(g, s, t);
    GenFrame(g, s, t);
  }

  // ---- the flag-off sweep and compaction ----

  lemma SweepBumpKeeps(g: Content, s: State, t: State)
    requires Inv(g, s) && SweepBumpStep(s, t)
    ensures Inv(g, t)
  {
    hide ShapeOk, MarkOk, GenOk;
    SweepBumpShape(g, s, t);
    MarkFrame(g, s, t);
    NoGen(g, t);
  }

  lemma SweepDeadMarkKeeps(g: Content, s: State, t: State)
    requires Inv(g, s) && SweepDeadMarkStep(s, t)
    ensures Inv(g, t)
  {
    hide ShapeOk, MarkOk, GenOk;
    SweepDeadMarkShape(g, s, t);
    SweptBroken(g, s, t);
    BrokenOk(g, t);
  }

  lemma SweepDropKeeps(g: Content, s: State, t: State)
    requires Inv(g, s) && SweepDropStep(s, t)
    ensures Inv(g, t)
  {
    hide ShapeOk, MarkOk, GenOk;
    CohortDropShape(g, s, t);
    SweptBroken(g, s, t);
    BrokenOk(g, t);
  }

  lemma SweepEndKeeps(g: Content, s: State, t: State)
    requires Inv(g, s) && SweepEndStep(s, t)
    ensures Inv(g, t)
  {
    hide ShapeOk, MarkOk, GenOk;
    EndedShape(g, s, t);
    NoMark(g, t);
    NoGen(g, t);
  }

  lemma InitCompactKeeps(g: Content, s: State, t: State)
    requires Inv(g, s) && InitCompactStep(s, t)
    ensures Inv(g, t)
  {
    hide ShapeOk, MarkOk, GenOk;
    InitCompactShape(g, s, t);
    NoMark(g, t);
    NoGen(g, t);
  }

  lemma CompactAddKeeps(g: Content, s: State, p: PackId, bits: set<nat>, t: State)
    requires Inv(g, s) && CompactAddStep(s, p, bits, t)
    ensures Inv(g, t)
  {
    hide ShapeOk, MarkOk, GenOk;
    CompactAddShape(g, s, p, bits, t);
    SpanOf(g, s);
    NoMark(g, t);
    NoGen(g, t);
  }

  lemma CompactFlipKeeps(g: Content, s: State, count: nat, t: State)
    requires Inv(g, s) && CompactFlipStep(s, count, t)
    ensures Inv(g, t)
  {
    hide ShapeOk, MarkOk, GenOk;
    CompactFlipShape(g, s, count, t);
    NoMark(g, t);
    NoGen(g, t);
  }

  lemma CompactDeadMarkKeeps(g: Content, s: State, t: State)
    requires Inv(g, s) && CompactDeadMarkStep(s, t)
    ensures Inv(g, t)
  {
    hide ShapeOk, MarkOk, GenOk;
    CompactDeadMarkShape(g, s, t);
    SpanOf(g, s);
    NoMark(g, t);
    NoGen(g, t);
  }

  lemma CompactDropKeeps(g: Content, s: State, t: State)
    requires Inv(g, s) && CompactDropStep(s, t)
    ensures Inv(g, t)
  {
    hide ShapeOk, MarkOk, GenOk;
    CohortDropShape(g, s, t);
    SpanOf(g, s);
    NoMark(g, t);
    NoGen(g, t);
  }

  lemma CompactEndKeeps(g: Content, s: State, t: State)
    requires Inv(g, s) && CompactEndStep(s, t)
    ensures Inv(g, t)
  {
    hide ShapeOk, MarkOk, GenOk;
    EndedShape(g, s, t);
    NoMark(g, t);
    NoGen(g, t);
  }

  // ---- the wipes ----

  lemma WipeRetiredKeeps(g: Content, s: State, drop: set<PackId>, t: State)
    requires Inv(g, s) && WipeRetiredStep(s, drop, t)
    ensures Inv(g, t)
  {
    hide ShapeOk, MarkOk, GenOk;
    WipeRetiredShape(g, s, drop, t);
    CohortKept(s, t);
    if drop == {} {
      assert t.db.rows == s.db.rows;
      MarkFrame(g, s, t);
      GenFrame(g, s, t);
    } else {
      DroppedBroken(s, drop, t);
      BrokenOk(g, t);
    }
  }

  lemma WipeRowsKeeps(g: Content, s: State, all: bool, t: State)
    requires Inv(g, s) && WipeRowsStep(s, all, t)
    ensures Inv(g, t)
  {
    hide ShapeOk, MarkOk, GenOk;
    WipeRowsShape(g, s, all, t);
    WipeMark(g, s, t);
    CohortKept(s, t);
    StoreGen(g, s, t);
  }

  lemma WipeDeadKeeps(g: Content, s: State, t: State)
    requires Inv(g, s) && WipeDeadStep(s, t)
    ensures Inv(g, t)
  {
    hide ShapeOk, MarkOk, GenOk;
    WipeDeadShape(g, s, t);
    SpanOf(g, s);
    NotOfCohort(g, s);
    WipeMark(g, s, t);
    CohortKept(s, t);
    StoreGen(g, s, t);
  }

  lemma WipeCursorKeeps(g: Content, s: State, t: State)
    requires Inv(g, s) && WipeCursorStep(s, t)
    ensures Inv(g, t)
  {
    hide ShapeOk, MarkOk, GenOk;
    WipeCursorShape(g, s, t);
    MarkFrame(g, s, t);
    StoreGen(g, s, t);
  }

  lemma WipeMetaKeeps(g: Content, s: State, t: State)
    requires Inv(g, s) && WipeMetaStep(s, t)
    ensures Inv(g, t)
  {
    hide ShapeOk, MarkOk, GenOk;
    EndedShape(g, s, t);
    NoMark(g, t);
    NoGen(g, t);
  }

  // ---- every step ----

  lemma EnvKeeps(g: Content, s: State, a: Action, t: State)
    requires Inv(g, s) && EnvFamily(g, s, a, t)
    ensures Inv(g, t)
  {
    hide Inv, IngestRowsStep, RejectStep, ReapStep, PinStep, UnpinStep, BumpVersionStep, StopStep, ScratchStep;
    match a
    case IngestRows(p, count, rows) => IngestRowsKeeps(g, s, p, count, rows, t);
    case Reject(p) => RejectKeeps(g, s, p, t);
    case Reap(p) => ReapKeeps(g, s, p, t);
    case Pin(n) => PinKeeps(g, s, n, t);
    case Unpin(n) => UnpinKeeps(g, s, n, t);
    case BumpVersion => BumpVersionKeeps(g, s, t);
    case Stop => StopKeeps(g, s, t);
    case Scratch => ScratchKeeps(g, s, t);
    case _ =>
  }

  lemma PlainKeeps(g: Content, s: State, a: Action, t: State)
    requires Inv(g, s) && PlainFamily(g, s, a, t)
    ensures Inv(g, t)
  {
    hide Inv, PlainPromoteStep, PlainDemoteStep, PlainLandStep, PlainDeleteStep;
    match a
    case PlainPromote(p) => PlainPromoteKeeps(g, s, p, t);
    case PlainDemote => PlainDemoteKeeps(g, s, t);
    case PlainLand(n, r) => PlainLandKeeps(g, s, n, r, t);
    case PlainDelete(n) => PlainDeleteKeeps(g, s, n, t);
    case _ =>
  }

  lemma PushKeeps(g: Content, s: State, a: Action, t: State)
    requires Inv(g, s) && PushFamily(g, s, a, t)
    ensures Inv(g, t)
  {
    hide Inv, PushPendingStep, PushPromoteStep, PushDemoteStep, PushForgetStep, PushFeedStep, PushLandStep,
      PushDeleteStep;
    match a
    case PushPending(p) => PushPendingKeeps(g, s, p, t);
    case PushPromote(p) => PushPromoteKeeps(g, s, p, t);
    case PushDemote => PushDemoteKeeps(g, s, t);
    case PushForget => PushForgetKeeps(g, s, t);
    case PushFeed(n, r) => PushFeedKeeps(g, s, n, r, t);
    case PushLand => PushLandKeeps(g, s, t);
    case PushDelete(n) => PushDeleteKeeps(g, s, n, t);
    case _ =>
  }

  lemma WalkKeeps(g: Content, s: State, a: Action, t: State)
    requires Inv(g, s) && WalkFamily(g, s, a, t)
    ensures Inv(g, t)
  {
    hide Inv, InitMarkStep, StampBarrierStep, PlanBatchStep, FlushBitsStep, WriteSeenStep, FeedKidsStep,
      DropExpandedStep, DropMissesStep;
    match a
    case InitMark => InitMarkKeeps(g, s, t);
    case StampBarrier => StampBarrierKeeps(g, s, t);
    case PlanBatch(pl) => PlanBatchKeeps(g, s, pl, t);
    case FlushBits(ids) => FlushBitsKeeps(g, s, ids, t);
    case WriteSeen => WriteSeenKeeps(g, s, t);
    case FeedKids(kids) => FeedKidsKeeps(g, s, kids, t);
    case DropExpanded => DropExpandedKeeps(g, s, t);
    case DropMisses(m) => DropMissesKeeps(g, s, m, t);
    case _ =>
  }

  lemma PageKeeps(g: Content, s: State, a: Action, t: State)
    requires Inv(g, s) && PageFamily(g, s, a, t)
    ensures Inv(g, t)
  {
    hide Inv, PageFeedStep, PageMoveStep, PageDoneStep, DropPendingStep, DropSeenStep, HandoffStep;
    match a
    case PageFeed(p, c) => PageFeedKeeps(g, s, p, c, t);
    case PageMove => PageMoveKeeps(g, s, t);
    case PageDone => PageDoneKeeps(g, s, t);
    case DropPending => DropPendingKeeps(g, s, t);
    case DropSeen => DropSeenKeeps(g, s, t);
    case Handoff => HandoffKeeps(g, s, t);
    case _ =>
  }

  lemma BuildKeeps(g: Content, s: State, a: Action, t: State)
    requires Inv(g, s) && BuildFamily(g, s, a, t)
    ensures Inv(g, t)
  {
    hide Inv, FreezeBuiltStep, StakePackStep, NamePackStep, OpenPosStep, BuildRowsStep, ClaimStep, FlipLiveStep,
      PublishSweepStep, PublishEmptyStep;
    match a
    case FreezeBuilt => FreezeBuiltKeeps(g, s, t);
    case StakePack(n) => StakePackKeeps(g, s, n, t);
    case NamePack => NamePackKeeps(g, s, t);
    case OpenPos => OpenPosKeeps(g, s, t);
    case BuildRows(rows) => BuildRowsKeeps(g, s, rows, t);
    case Claim(claims) => ClaimKeeps(g, s, claims, t);
    case FlipLive(count) => FlipLiveKeeps(g, s, count, t);
    case PublishSweep => PublishSweepKeeps(g, s, t);
    case PublishEmpty => PublishEmptyKeeps(g, s, t);
    case _ =>
  }

  lemma RetireKeeps(g: Content, s: State, a: Action, t: State)
    requires Inv(g, s) && RetireFamily(g, s, a, t)
    ensures Inv(g, t)
  {
    hide Inv, RecordSwapStep, RecordFallbackStep, BumpEpochStep, DeadMarkStep, DropRetiredStep, EndChainStep,
      ResumeLiveStep, ResumeDeadStep;
    match a
    case RecordSwap => RecordSwapKeeps(g, s, t);
    case RecordFallback(ids) => RecordFallbackKeeps(g, s, ids, t);
    case BumpEpoch => BumpEpochKeeps(g, s, t);
    case DeadMark => DeadMarkKeeps(g, s, t);
    case DropRetired => DropRetiredKeeps(g, s, t);
    case EndChain => EndChainKeeps(g, s, t);
    case ResumeLive => ResumeLiveKeeps(g, s, t);
    case ResumeDead => ResumeDeadKeeps(g, s, t);
    case _ =>
  }

  lemma WipeKeeps(g: Content, s: State, a: Action, t: State)
    requires Inv(g, s) && WipeFamily(g, s, a, t)
    ensures Inv(g, t)
  {
    hide Inv, WipeRetiredStep, WipeRowsStep, WipeDeadStep, WipeCursorStep, WipeMetaStep;
    match a
    case WipeRetired(drop) => WipeRetiredKeeps(g, s, drop, t);
    case WipeRows(all) => WipeRowsKeeps(g, s, all, t);
    case WipeDead => WipeDeadKeeps(g, s, t);
    case WipeCursor => WipeCursorKeeps(g, s, t);
    case WipeMeta => WipeMetaKeeps(g, s, t);
    case _ =>
  }

  lemma FinishKeeps(g: Content, s: State, a: Action, t: State)
    requires Inv(g, s) && FinishFamily(g, s, a, t)
    ensures Inv(g, t)
  {
    hide Inv, SweepBumpStep, SweepDeadMarkStep, SweepDropStep, SweepEndStep, InitCompactStep, CompactAddStep,
      CompactFlipStep, CompactDeadMarkStep, CompactDropStep, CompactEndStep;
    match a
    case SweepBump => SweepBumpKeeps(g, s, t);
    case SweepDeadMark => SweepDeadMarkKeeps(g, s, t);
    case SweepDrop => SweepDropKeeps(g, s, t);
    case SweepEnd => SweepEndKeeps(g, s, t);
    case InitCompact => InitCompactKeeps(g, s, t);
    case CompactAdd(p, bits) => CompactAddKeeps(g, s, p, bits, t);
    case CompactFlip(count) => CompactFlipKeeps(g, s, count, t);
    case CompactDeadMark => CompactDeadMarkKeeps(g, s, t);
    case CompactDrop => CompactDropKeeps(g, s, t);
    case CompactEnd => CompactEndKeeps(g, s, t);
    case _ =>
  }

  /** Every write of every actor, and every cut between two writes, keeps the invariant. */
  lemma StepKeeps(g: Content, s: State, a: Action, t: State)
    requires Inv(g, s) && Step(g, s, a, t)
    ensures Inv(g, t)
  {
    hide Inv, EnvFamily, PlainFamily, PushFamily, WalkFamily, PageFamily, BuildFamily, RetireFamily, WipeFamily,
      FinishFamily;
    if EnvAction(a) { EnvKeeps(g, s, a, t); }
    else if PlainAction(a) { PlainKeeps(g, s, a, t); }
    else if PushAction(a) { PushKeeps(g, s, a, t); }
    else if WalkAction(a) { WalkKeeps(g, s, a, t); }
    else if PageAction(a) { PageKeeps(g, s, a, t); }
    else if BuildAction(a) { BuildKeeps(g, s, a, t); }
    else if RetireAction(a) { RetireKeeps(g, s, a, t); }
    else if WipeAction(a) { WipeKeeps(g, s, a, t); }
    else { FinishKeeps(g, s, a, t); }
  }
}
