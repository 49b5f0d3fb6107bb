/** Every action keeps the structural invariant: one lemma per action. */
module Shaping {
  import opened Repository
  import opened Steps
  import opened Shape

  // ---- requests and the janitor ----

  /** A pack being ingested for a push belongs to no chain. */
  lemma Foreign(s: State, p: PackId)
    requires s.chain.Some? && ChainOk(s.db, s.marked, s.chain.value)
    requires Fresh(s, p) || (p in s.db.packs && s.db.packs[p].state.Ingesting? && s.db.packs[p].pushed)
    ensures p !in Own(s.marked, s.chain.value)
  {
    hide BuildOk, RetireOk, ModeOk, BuiltWithin;
  }

  /** A change to one pack that is not live and not the chain's. */
  lemma ForeignShape(g: Content, s: State, p: PackId, t: State)
    requires ShapeOk(g, s) && s.span.Idle? && t == s.(db := t.db)
    requires p in t.db.rows ==> Ordinals(t.db.rows[p])
    requires !LivePack(s.db, p) && !LivePack(t.db, p) && SameElse(s.db, t.db, p)
    requires s.chain.Some? ==> SameView(s.db, t.db, Own(s.marked, s.chain.value))
    requires s.chain.Some? && p in t.db.packs && p in s.pending ==>
      t.db.packs[p].pushed && (t.db.packs[p].state.Ingesting? ==> s.pending[p] == -1)
    ensures ShapeOk(g, t)
  {
    hide PlanOk, ChainOk, ClaimsOk, StoreOk, SameView, Taken, StakedOk, Retiring, Emptied, Flushed;
    ElseStore(s.db, t.db, p);
    PlanFrame(s, t);
    if s.chain.Some? { OtherPacks(s, t); }
  }

  ghost predicate SameElse(a: Store, b: Store, p: PackId) {
    && (forall q :: q != p ==> (q in a.packs <==> q in b.packs) && (q in a.rows <==> q in b.rows))
    && (forall q :: q != p && q in a.packs ==> a.packs[q] == b.packs[q])
    && (forall q :: q != p && q in a.rows ==> a.rows[q] == b.rows[q])
  }

  lemma ElseStore(a: Store, b: Store, p: PackId)
    requires StoreOk(a) && SameElse(a, b, p) && !LivePack(b, p) && (p in b.rows ==> Ordinals(b.rows[p]))
    ensures StoreOk(b)
  {
    forall q | LivePack(b, q) ensures CountsCover(b, q) { assert LivePack(a, q); }
  }

  lemma ElseView(a: Store, b: Store, p: PackId, ids: set<PackId>)
    requires SameElse(a, b, p) && p !in ids
    ensures SameView(a, b, ids)
  {
  }

  lemma IngestRowsShape(g: Content, s: State, p: PackId, count: nat, rows: map<Sha, nat>, t: State)
    requires ShapeOk(g, s) && IngestRowsStep(s, p, count, rows, t)
    ensures ShapeOk(g, t)
  {
    hide PlanOk, ChainOk, TrustOk, SameView, Taken, StakedOk, Retiring, Emptied, Flushed;
    if s.chain.Some? {
      Foreign(s, p);
      ElseView(s.db, t.db, p, Own(s.marked, s.chain.value));
    }
    ForeignShape(g, s, p, t);
  }

  lemma RejectShape(g: Content, s: State, p: PackId, t: State)
    requires ShapeOk(g, s) && RejectStep(s, p, t)
    ensures ShapeOk(g, t)
  {
    hide PlanOk, ChainOk, TrustOk, SameView, Taken, StakedOk, Retiring, Emptied, Flushed;
    if s.chain.Some? {
      Foreign(s, p);
      ElseView(s.db, t.db, p, Own(s.marked, s.chain.value));
    }
    ForeignShape(g, s, p, t);
  }

  lemma ReapShape(g: Content, s: State, p: PackId, t: State)
    requires ShapeOk(g, s) && ReapStep(s, p, t)
    ensures ShapeOk(g, t)
  {
    hide PlanOk, ChainOk, TrustOk, Taken, StakedOk, Retiring, Emptied, Flushed;
    ForeignShape(g, s, p, t);
  }

  lemma PinShape(g: Content, s: State, t: State)
    requires ShapeOk(g, s) && s.span.Idle? && t == s.(pins := t.pins) && PinsOk(t.refs, t.pins)
    ensures ShapeOk(g, t)
  {
    hide ClaimsOk, ChainOk, StoreOk, Taken, StakedOk, Retiring, Emptied, Flushed;
  }

  lemma BumpVersionShape(g: Content, s: State, t: State)
    requires ShapeOk(g, s) && BumpVersionStep(s, t)
    ensures ShapeOk(g, t)
  {
    hide ChainOk, StoreOk, Promotable, StakedOk, Retiring, Emptied, Flushed;
  }

  /** What a cut wipe leaves is no more than a chain that trusts nothing of it needs. */
  lemma UntrustedClaims(s: State)
    requires Emptied(s) && Whole(s.db, s.marked) && BuildOk(s.db, s.marked, s.chain.value)
    ensures ClaimsOk(s.db, s.marked, s.chain.value, Unmoved(s)) <==> !Trusted(s)
  {
    hide BuiltSha, DedupMarks;
    var c := s.chain.value;
    if Claims(c) != {} { assert exists x :: x in Claims(c) && BuiltSha(s.db, s.marked, x); }
    assert forall x :: BuiltSha(s.db, s.marked, x) ==> x !in s.db.rows[c.newPack.value];
  }

  lemma StopTrust(g: Content, s: State, t: State)
    requires ShapeOk(g, s) && StopStep(s, t)
    ensures TrustOk(t)
  {
    hide ClaimsOk, BuildOk, PlanOk, StoreOk;
    if s.chain.Some? && Whole(s.db, s.marked) {
      if Wipe(s.span) && !Tears(s) { UntrustedClaims(s); }
      if !Wipe(s.span) { MissedClaims(s.db, s.marked, s.chain.value, Unmoved(s)); }
    }
  }

  lemma MissedClaims(db: Store, m: Cohort, c: Chain, unmoved: bool)
    ensures ClaimsOk(db, m, c, unmoved) ==> ClaimsOk(db, m, c.(missed := true), unmoved)
  {
    hide BuiltSha;
  }

  lemma TornChain(db: Store, m: Cohort, c: Chain, sp: Span)
    requires ChainOk(db, m, c)
    ensures ChainOk(db, m, TornBy(c, sp))
  {
  }

  lemma WalkingWhole(db: Store, m: Cohort, c: Chain)
    requires ChainOk(db, m, c)
    ensures Walking(c) ==> Whole(db, m)
  {
    hide BuildOk, RetireOk, BuiltWithin, NewPackOk;
  }

  lemma StopShape(g: Content, s: State, t: State)
    requires ShapeOk(g, s) && StopStep(s, t)
    ensures ShapeOk(g, t)
  {
    hide StoreOk, TrustOk, Trusted, Taken, Retiring, StakedOk, Emptied, Flushed, ChainOk, PinsOk;
    StopTrust(g, s, t);
    if s.chain.Some? {
      TornChain(s.db, s.marked, s.chain.value, s.span);
      WalkingWhole(s.db, s.marked, s.chain.value);
    }
    UndoneWithin(s);
  }

  lemma UndoneWithin(s: State)
    ensures forall x :: Alive(Undone(s).db, x) ==> Alive(s.db, x)
  {
    assert forall x, p :: LiveCopy(Undone(s).db, x, p) ==> LiveCopy(s.db, x, p);
  }

  lemma ScratchShape(g: Content, s: State, t: State)
    requires ShapeOk(g, s) && ScratchStep(s, t)
    ensures ShapeOk(g, t)
  {
  }

  // ---- pushes ----

  /** A pack of a push goes live or is given back. */
  lemma TurnedShape(s: State, p: PackId, st: PackState, t: State)
    requires TablesOk(s) && (st.Live? ==> CountsCover(s.db, p))
    requires t == s.(db := Turn(s.db, {p}, st), span := t.span) && !Wipe(s.span) && !Wipe(t.span)
    requires s.chain.Some? ==>
      && ChainOk(s.db, s.marked, s.chain.value) && TrustOk(s) && p !in Own(s.marked, s.chain.value)
    ensures TablesOk(t) && (s.chain.Some? ==> ChainOk(t.db, t.marked, t.chain.value)) && TrustOk(t)
  {
    hide ChainOk, ClaimsOk, StoreOk, SameView, Own, Taken, StakedOk, Retiring, Emptied, Flushed;
    TurnStore(s.db, {p}, st);
    if s.chain.Some? {
      ElseView(s.db, t.db, p, Own(s.marked, s.chain.value));
      OtherPacks(s, t);
    }
  }

  lemma PromoteUndone(s: State, p: PackId, t: State)
    requires p in s.db.packs && s.db.packs[p].state.Ingesting? && t.db == Turn(s.db, {p}, Live)
    requires t.span == PlainPromoted(p) || t.span == Promoted(p)
    ensures Undone(t).db == s.db
  {
    assert Undone(t).db.packs == s.db.packs;
  }

  lemma PromoteLive(db: Store, p: PackId)
    requires !LivePack(db, p)
    ensures LiveKept(db, Turn(db, {p}, Live))
  {
  }

  lemma PlainPromoteShape(g: Content, s: State, p: PackId, t: State)
    requires ShapeOk(g, s) && PlainPromoteStep(s, p, t)
    ensures ShapeOk(g, t)
  {
    hide ChainOk, TablesOk, TrustOk, StakedOk, Retiring, Emptied, Flushed;
    if s.chain.Some? { Foreign(s, p); }
    TurnedShape(s, p, Live, t);
    PromoteUndone(s, p, t);
    PromoteLive(s.db, p);
    LiveKeptAlive(s.db, t.db);
  }

  lemma PlainDemoteShape(g: Content, s: State, t: State)
    requires ShapeOk(g, s) && PlainDemoteStep(s, t)
    ensures ShapeOk(g, t)
  {
    hide ChainOk, TablesOk, TrustOk, StakedOk, Retiring, Emptied, Flushed;
    if s.chain.Some? { TakenForeign(s, s.span.pack); }
    TurnedShape(s, s.span.pack, Ingesting, t);
  }

  /** A pack taken live for a push belongs to no chain. */
  lemma TakenForeign(s: State, p: PackId)
    requires s.chain.Some? && ChainOk(s.db, s.marked, s.chain.value) && Taken(s, p)
    ensures p !in Own(s.marked, s.chain.value)
  {
    hide BuildOk, RetireOk, ModeOk, BuiltWithin, CohortOk;
  }

  lemma PlainRefsShape(g: Content, s: State, t: State)
    requires ShapeOk(g, s) && (s.span.Idle? || Plain(s.span)) && !BarrierOn(s)
    requires t == s.(refs := t.refs, span := PlainOpen) && PinsOk(t.refs, t.pins)
    ensures ShapeOk(g, t)
  {
    hide ChainOk, StoreOk, ClaimsOk, PinsOk, StakedOk, Retiring, Emptied, Flushed;
  }

  lemma PushPendingShape(g: Content, s: State, p: PackId, t: State)
    requires ShapeOk(g, s) && PushPendingStep(s, p, t)
    ensures ShapeOk(g, t)
  {
    hide ChainOk, StoreOk, PinsOk, ClaimsOk, Taken, StakedOk, Retiring, Emptied, Flushed;
  }

  lemma PushPromoteShape(g: Content, s: State, p: PackId, t: State)
    requires ShapeOk(g, s) && PushPromoteStep(s, p, t)
    ensures ShapeOk(g, t)
  {
    hide ChainOk, TablesOk, TrustOk, StakedOk, Retiring, Emptied, Flushed;
    Foreign(s, p);
    TurnedShape(s, p, Live, t);
    PromoteUndone(s, p, t);
    PromoteLive(s.db, p);
    LiveKeptAlive(s.db, t.db);
  }

  lemma PushDemoteShape(g: Content, s: State, t: State)
    requires ShapeOk(g, s) && PushDemoteStep(s, t)
    ensures ShapeOk(g, t)
  {
    hide ChainOk, TablesOk, TrustOk, StakedOk, Retiring, Emptied, Flushed;
    TakenForeign(s, s.span.pack);
    TurnedShape(s, s.span.pack, Ingesting, t);
  }

  lemma PushForgetShape(g: Content, s: State, t: State)
    requires ShapeOk(g, s) && PushForgetStep(s, t)
    ensures ShapeOk(g, t)
  {
    hide ChainOk, StoreOk, PinsOk, ClaimsOk, Taken, StakedOk, Retiring, Emptied, Flushed;
  }

  lemma PushFeedShape(g: Content, s: State, n: RefName, r: Ref, t: State)
    requires ShapeOk(g, s) && PushFeedStep(s, n, r, t)
    ensures ShapeOk(g, t)
  {
    hide ChainOk, StoreOk, PinsOk, ClaimsOk, StakedOk, Retiring, Emptied, Flushed;
  }

  lemma PushLandShape(g: Content, s: State, t: State)
    requires ShapeOk(g, s) && PushLandStep(s, t)
    ensures ShapeOk(g, t)
  {
    hide ChainOk, StoreOk, ClaimsOk, Taken, StakedOk, Retiring, Emptied, Flushed;
  }

  lemma PushDeleteShape(g: Content, s: State, n: RefName, t: State)
    requires ShapeOk(g, s) && PushDeleteStep(s, n, t)
    ensures ShapeOk(g, t)
  {
    hide ChainOk, StoreOk, ClaimsOk, StakedOk, Retiring, Emptied, Flushed;
  }

  // ---- the walk ----

  lemma InitMarkShape(g: Content, s: State, t: State)
    requires ShapeOk(g, s) && InitMarkStep(g, s, t)
    ensures ShapeOk(g, t)
  {
    hide StoreOk, PinsOk, MarkRoot, Taken, StakedOk, Retiring, Emptied, Flushed;
  }

  lemma StampBarrierShape(g: Content, s: State, t: State)
    requires ShapeOk(g, s) && StampBarrierStep(s, t)
    ensures ShapeOk(g, t)
  {
    hide StoreOk, PinsOk, BuiltWithin, Taken, StakedOk, Retiring, Emptied, Flushed;
  }

  lemma PlanBatchShape(g: Content, s: State, pl: Plan, t: State)
    requires ShapeOk(g, s) && PlanBatchStep(s, pl, t)
    ensures ShapeOk(g, t)
  {
    hide StoreOk, PinsOk, ChainOk, ClaimsOk, Taken, StakedOk, Retiring, Emptied, Flushed;
  }

  /** More bits leave the build as it is: the mark has none, the sweep's is frozen. */
  lemma MoreBitsChain(db: Store, m: Cohort, k: Cohort, c: Chain)
    requires ChainOk(db, m, c) && Walking(c) && k.Keys == m.Keys
    requires forall p :: p in m ==> m[p].bitmap <= k[p].bitmap && k[p].built == m[p].built
    ensures ChainOk(db, k, c)
    ensures forall unmoved: bool :: ClaimsOk(db, m, c, unmoved) ==> ClaimsOk(db, k, c, unmoved)
  {
    hide BuiltSha;
    if c.phase.Sweep? { BuiltSame(db, m, k); }
  }

  lemma FlushBitsShape(g: Content, s: State, ids: set<Sha>, t: State)
    requires ShapeOk(g, s) && FlushBitsStep(s, ids, t)
    ensures ShapeOk(g, t)
  {
    hide StoreOk, PinsOk, ChainOk, ClaimsOk, Taken, StakedOk, Retiring, Emptied;
    MoreBitsChain(s.db, s.marked, t.marked, s.chain.value);
  }

  lemma WriteSeenShape(g: Content, s: State, t: State)
    requires ShapeOk(g, s) && WriteSeenStep(s, t)
    ensures ShapeOk(g, t)
  {
    hide StoreOk, PinsOk, ChainOk, ClaimsOk, Taken, StakedOk, Retiring, Emptied;
  }

  lemma KidsQueued(g: Content, s: State, kids: set<Sha>, t: State)
    requires FeedKidsStep(g, s, kids, t)
    ensures s.frontier.Keys <= t.frontier.Keys && Kids(g, Read(s, s.span.ids)) <= t.seen + t.frontier.Keys
  {
  }

  lemma FeedKidsShape(g: Content, s: State, kids: set<Sha>, t: State)
    requires ShapeOk(g, s) && FeedKidsStep(g, s, kids, t)
    ensures ShapeOk(g, t)
  {
    hide StoreOk, PinsOk, ChainOk, ClaimsOk, Taken, StakedOk, Retiring, Emptied, Kids, Upsert, Alive, Whole, Marked;
    KidsQueued(g, s, kids, t);
  }

  lemma DropExpandedShape(g: Content, s: State, t: State)
    requires ShapeOk(g, s) && DropExpandedStep(s, t)
    ensures ShapeOk(g, t)
  {
    hide StoreOk, PinsOk, ChainOk, ClaimsOk, Taken, StakedOk, Retiring, Emptied;
  }

  lemma DropMissesShape(g: Content, s: State, misses: set<Sha>, t: State)
    requires ShapeOk(g, s) && DropMissesStep(s, misses, t)
    ensures ShapeOk(g, t)
  {
    hide StoreOk, PinsOk, ChainOk, ClaimsOk, Taken, StakedOk, Retiring, Emptied, Flushed;
    assert forall x, p :: LiveCopy(s.db, x, p) ==> Alive(s.db, x);
  }

  // ---- pages and the hand-over ----

  lemma PageFeedShape(g: Content, s: State, p: PackId, cursor: int, t: State)
    requires ShapeOk(g, s) && PageFeedStep(g, s, p, cursor, t)
    ensures ShapeOk(g, t)
  {
    hide StoreOk, PinsOk, ChainOk, ClaimsOk, Taken, StakedOk, Retiring, Emptied, Flushed;
  }

  lemma PageMoveShape(g: Content, s: State, t: State)
    requires ShapeOk(g, s) && PageMoveStep(s, t)
    ensures ShapeOk(g, t)
  {
    hide StoreOk, PinsOk, ChainOk, ClaimsOk, Taken, StakedOk, Retiring, Emptied, Flushed;
  }

  lemma PageDoneShape(g: Content, s: State, t: State)
    requires ShapeOk(g, s) && PageDoneStep(s, t)
    ensures ShapeOk(g, t)
  {
    hide StoreOk, PinsOk, ChainOk, ClaimsOk, Taken, StakedOk, Retiring, Emptied, Flushed;
  }

  lemma DropPendingShape(g: Content, s: State, t: State)
    requires ShapeOk(g, s) && DropPendingStep(s, t)
    ensures ShapeOk(g, t)
  {
    hide StoreOk, PinsOk, ChainOk, ClaimsOk, Taken, StakedOk, Retiring, Emptied, Flushed;
  }

  lemma DropSeenShape(g: Content, s: State, t: State)
    requires ShapeOk(g, s) && DropSeenStep(s, t)
    ensures ShapeOk(g, t)
  {
    hide StoreOk, PinsOk, BuiltSha, DedupMarks, BuiltWithin, Taken, StakedOk, Retiring, Emptied, Flushed;
  }

  lemma HandoffShape(g: Content, s: State, t: State)
    requires ShapeOk(g, s) && HandoffStep(s, t)
    ensures ShapeOk(g, t)
  {
    hide StoreOk, PinsOk, BuiltSha, DedupMarks, BuiltWithin, Taken, StakedOk, Retiring, Emptied, Flushed;
  }

  // ---- the build ----

  lemma FreezeBuiltShape(g: Content, s: State, t: State)
    requires ShapeOk(g, s) && FreezeBuiltStep(s, t)
    ensures ShapeOk(g, t)
  {
    hide StoreOk, PinsOk, BuiltSha, DedupMarks, Taken, StakedOk, Retiring, Emptied, Flushed;
    assert t.marked.Keys == s.marked.Keys;
    assert BuiltWithin(t.marked);
  }

  lemma StakePackShape(g: Content, s: State, n: PackId, t: State)
    requires ShapeOk(g, s) && StakePackStep(s, n, t)
    ensures ShapeOk(g, t)
  {
    hide PinsOk, ChainOk, StoreOk, ClaimsOk, PlanOk, SameView, QueueOk, Taken, Retiring, Emptied, Flushed;
    Foreign(s, n);
    ElseView(s.db, t.db, n, Own(s.marked, s.chain.value));
    ForeignShape(g, s, n, t.(span := Idle));
    StakedShape(g, s, n, t);
  }

  lemma StakedShape(g: Content, s: State, n: PackId, t: State)
    requires StakePackStep(s, n, t) && ShapeOk(g, t.(span := Idle))
    ensures ShapeOk(g, t)
  {
    hide PinsOk, ChainOk, StoreOk, ClaimsOk, Taken, Retiring, Emptied, Flushed;
  }

  lemma NamedChain(s: State, c: Chain)
    requires s.span.Staked? && StakedOk(s, s.span.pack) && ChainOk(s.db, s.marked, s.chain.value)
    requires c == s.chain.value.(newPack := Some(s.span.pack))
    ensures ChainOk(s.db, s.marked, c) && forall unmoved: bool :: ClaimsOk(s.db, s.marked, c, unmoved)
  {
    hide PinsOk, StoreOk, BuiltSha, DedupMarks, BuiltWithin;
    BuildFrame(s.db, s.db, s.marked, s.chain.value, c);
  }

  lemma NamePackShape(g: Content, s: State, t: State)
    requires ShapeOk(g, s) && NamePackStep(s, t)
    ensures ShapeOk(g, t)
  {
    hide PinsOk, StoreOk, ChainOk, ClaimsOk, Taken, Retiring, Emptied, Flushed;
    NamedChain(s, t.chain.value);
  }

  lemma OpenPosShape(g: Content, s: State, t: State)
    requires ShapeOk(g, s) && OpenPosStep(s, t)
    ensures ShapeOk(g, t)
  {
    hide PinsOk, StoreOk, BuiltSha, DedupMarks, BuiltWithin, Taken, StakedOk, Retiring, Emptied, Flushed;
    BuildFrame(s.db, t.db, s.marked, s.chain.value, t.chain.value);
  }

  /** The chain after rows joined its build pack. */
  lemma PostedChain(s: State, rows: map<Sha, nat>, t: State)
    requires s.chain.Some? && ChainOk(s.db, s.marked, s.chain.value) && TrustOk(s) && BuildRowsStep(s, rows, t)
    ensures ChainOk(t.db, t.marked, t.chain.value) && TrustOk(t)
  {
    hide BuiltSha, DedupMarks, BuiltWithin, RetireOk;
    ElseView(s.db, t.db, s.chain.value.newPack.value, s.marked.Keys);
    BuiltFrame(s.db, t.db, s.marked);
    BuildFrame(s.db, t.db, s.marked, s.chain.value, t.chain.value);
  }

  lemma BuildRowsShape(g: Content, s: State, rows: map<Sha, nat>, t: State)
    requires ShapeOk(g, s) && BuildRowsStep(s, rows, t)
    ensures ShapeOk(g, t)
  {
    hide PinsOk, ChainOk, TrustOk, PlanOk, StoreOk, BuiltSha, Taken, StakedOk, Retiring, Emptied, Flushed;
    ElseStore(s.db, t.db, s.chain.value.newPack.value);
    PostedChain(s, rows, t);
    PlanFrame(s, t);
  }

  lemma ClaimShape(g: Content, s: State, claims: set<Sha>, t: State)
    requires ShapeOk(g, s) && ClaimStep(s, claims, t)
    ensures ShapeOk(g, t)
  {
    hide PinsOk, StoreOk, BuiltSha, DedupMarks, BuiltWithin, Taken, StakedOk, Retiring, Emptied, Flushed;
    BuildFrame(s.db, t.db, s.marked, s.chain.value, t.chain.value);
  }

  lemma FlipStore(db: Store, n: PackId, count: nat)
    requires StoreOk(db) && n in db.rows && forall x :: x in db.rows[n] ==> db.rows[n][x] < count
    ensures StoreOk(db.(packs := db.packs[n := PackRow(Live, count, false)]))
  {
    var b := db.(packs := db.packs[n := PackRow(Live, count, false)]);
    forall p | LivePack(b, p) ensures CountsCover(b, p) { assert p == n || LivePack(db, p); }
  }

  /** The build pack goes live on what the cursor claims and what was posted since. */
  lemma FlippedChain(s: State, n: PackId, count: nat, db: Store)
    requires s.chain.Some? && ChainOk(s.db, s.marked, s.chain.value) && TrustOk(s)
    requires Exhausted(s) && s.chain.value.newPack == Some(n) && !Gone(s.db, n)
    requires db == s.db.(packs := s.db.packs[n := PackRow(Live, count, false)])
    ensures ChainOk(db, s.marked, s.chain.value)
    ensures !s.chain.value.hollow ==> ClaimsOk(db, s.marked, s.chain.value, Unmoved(s))
  {
    hide BuiltSha, DedupMarks, BuiltWithin, RetireOk;
    ElseView(s.db, db, n, s.marked.Keys);
    BuiltFrame(s.db, db, s.marked);
    BuildFrame(s.db, db, s.marked, s.chain.value, s.chain.value);
  }

  lemma FlipLiveShape(g: Content, s: State, count: nat, t: State)
    requires ShapeOk(g, s) && FlipLiveStep(s, count, t)
    ensures ShapeOk(g, t)
  {
    hide PinsOk, StoreOk, ChainOk, ClaimsOk, BuiltSha, Taken, StakedOk, Retiring, Emptied, Flushed;
    FlipStore(s.db, s.chain.value.newPack.value, count);
    FlippedChain(s, s.chain.value.newPack.value, count, t.db);
  }

  lemma PublishSweepShape(g: Content, s: State, t: State)
    requires ShapeOk(g, s) && PublishSweepStep(s, t)
    ensures ShapeOk(g, t)
  {
    hide PinsOk, StoreOk, BuiltSha, DedupMarks, BuiltWithin, Taken, StakedOk, Retiring, Emptied, Flushed;
  }

  lemma PublishEmptyShape(g: Content, s: State, t: State)
    requires ShapeOk(g, s) && PublishEmptyStep(s, t)
    ensures ShapeOk(g, t)
  {
    hide PinsOk, StoreOk, DedupMarks, BuiltWithin, Taken, StakedOk, Retiring, Emptied, Flushed;
  }

  // ---- the barrier sweep ----

  lemma RecordSwapShape(g: Content, s: State, t: State)
    requires ShapeOk(g, s) && RecordSwapStep(s, t)
    ensures ShapeOk(g, t)
  {
    hide PinsOk, StoreOk, BuiltSha, DedupMarks, BuiltWithin, Lossy, Taken, StakedOk, Emptied, Flushed;
  }

  lemma RecordFallbackShape(g: Content, s: State, ids: set<PackId>, t: State)
    requires ShapeOk(g, s) && RecordFallbackStep(s, ids, t)
    ensures ShapeOk(g, t)
  {
    hide PinsOk, StoreOk, BuiltSha, DedupMarks, BuiltWithin, Lossy, Outer, SwapIds, Taken, StakedOk, Emptied, Flushed;
  }

  lemma BumpEpochShape(g: Content, s: State, t: State)
    requires ShapeOk(g, s) && BumpEpochStep(s, t)
    ensures ShapeOk(g, t)
  {
    hide PinsOk, StoreOk, ChainOk, ClaimsOk, Taken, StakedOk, Emptied, Flushed;
  }

  /** Killing recorded packs keeps the chain's shape. */
  lemma RetiredChain(db: Store, m: Cohort, c: Chain, it: Intent)
    requires ChainOk(db, m, c) && c.mode.Barrier? && c.retire == Some(it)
    ensures ChainOk(Turn(db, it.ids, Dead), m, c) && !Whole(Turn(db, it.ids, Dead), m)
  {
    hide BuiltSha, DedupMarks, BuiltWithin, BuildOk;
    var p :| p in it.ids;
    assert p in m && !LivePack(Turn(db, it.ids, Dead), p);
  }

  lemma DeadMarkShape(g: Content, s: State, t: State)
    requires ShapeOk(g, s) && DeadMarkStep(s, t)
    ensures ShapeOk(g, t)
  {
    hide PinsOk, StoreOk, ChainOk, ClaimsOk, Lossy, FallbackPack, SwapIds, Taken, StakedOk, Emptied, Flushed;
    TurnStore(s.db, s.span.intent.ids, Dead);
    RetiredChain(s.db, s.marked, s.chain.value, s.span.intent);
  }

  lemma DroppedChain(db: Store, m: Cohort, c: Chain, ids: set<PackId>)
    requires ChainOk(db, m, c) && ids <= m.Keys && !Whole(db, m)
    ensures ChainOk(db.(rows := db.rows - ids), m, c) && !Whole(db.(rows := db.rows - ids), m)
  {
    hide BuiltSha, DedupMarks, BuiltWithin, BuildOk;
    var p :| p in m && !LivePack(db, p);
    assert !LivePack(db.(rows := db.rows - ids), p);
  }

  lemma DropRetiredShape(g: Content, s: State, t: State)
    requires ShapeOk(g, s) && DropRetiredStep(s, t)
    ensures ShapeOk(g, t)
  {
    hide PinsOk, StoreOk, ClaimsOk, BuildOk, BuiltWithin, CohortOk, Taken, StakedOk, Retiring, Emptied, Flushed;
    DropStore(s.db, s.span.intent.ids);
    var p :| p in s.span.intent.ids;
    assert p in s.marked && !LivePack(s.db, p);
    DroppedChain(s.db, s.marked, s.chain.value, s.span.intent.ids);
  }

  lemma EndedShape(g: Content, s: State, t: State)
    requires ShapeOk(g, s) && t == s.(chain := None, plan := None, span := Idle)
    ensures ShapeOk(g, t)
  {
    hide PinsOk, StoreOk, Taken, StakedOk, Retiring, Emptied, Flushed;
  }

  lemma ResumeLiveShape(g: Content, s: State, t: State)
    requires ShapeOk(g, s) && ResumeLiveStep(s, t)
    ensures ShapeOk(g, t)
  {
    hide PinsOk, StoreOk, BuiltSha, DedupMarks, BuiltWithin, Taken, StakedOk, Retiring, Emptied, Flushed;
  }

  lemma ResumeDeadShape(g: Content, s: State, t: State)
    requires ShapeOk(g, s) && ResumeDeadStep(s, t)
    ensures ShapeOk(g, t)
  {
    hide PinsOk, StoreOk, ChainOk, ClaimsOk, Taken, StakedOk, Retiring, Emptied, Flushed;
  }

  // ---- the flag-off sweep and compaction ----

  lemma SweepBumpShape(g: Content, s: State, t: State)
    requires ShapeOk(g, s) && SweepBumpStep(s, t)
    ensures ShapeOk(g, t)
  {
    hide PinsOk, StoreOk, ChainOk, ClaimsOk, Taken, StakedOk, Retiring, Emptied, Flushed;
  }

  /** The whole cohort dies at the end of a flag-off or compact chain. */
  lemma SweptChain(db: Store, m: Cohort, c: Chain)
    requires ChainOk(db, m, c) && m != map[]
    requires (c.mode.FlagOff? && c.phase.Sweep?) || (c.mode.Compact? && c.pos.Some?)
    ensures ChainOk(Turn(db, m.Keys, Dead), m, c) && !Whole(Turn(db, m.Keys, Dead), m)
  {
    hide BuiltSha, DedupMarks, BuiltWithin, BuildOk;
    var p :| p in m;
    assert !LivePack(Turn(db, m.Keys, Dead), p);
  }

  lemma SweepDeadMarkShape(g: Content, s: State, t: State)
    requires ShapeOk(g, s) && SweepDeadMarkStep(s, t)
    ensures ShapeOk(g, t)
  {
    hide PinsOk, StoreOk, ClaimsOk, BuildOk, BuiltWithin, ModeOk, Taken, StakedOk, Retiring, Emptied, Flushed;
    TurnStore(s.db, s.marked.Keys, Dead);
    SweptChain(s.db, s.marked, s.chain.value);
  }

  lemma CohortDropShape(g: Content, s: State, t: State)
    requires ShapeOk(g, s) && (s.span.SweepDead? || s.span.SwapDead?)
    requires t == s.(db := s.db.(rows := s.db.rows - s.marked.Keys))
    ensures ShapeOk(g, t)
  {
    hide PinsOk, StoreOk, ClaimsOk, BuildOk, BuiltWithin, Taken, StakedOk, Retiring, Emptied, Flushed;
    DropStore(s.db, s.marked.Keys);
    var p :| p in s.marked;
    assert !LivePack(s.db, p);
    DroppedChain(s.db, s.marked, s.chain.value, s.marked.Keys);
  }

  lemma InitCompactShape(g: Content, s: State, t: State)
    requires ShapeOk(g, s) && InitCompactStep(s, t)
    ensures ShapeOk(g, t)
  {
    hide PinsOk, StoreOk, Taken, StakedOk, Retiring, Emptied, Flushed;
  }

  lemma CompactAddShape(g: Content, s: State, p: PackId, bits: set<nat>, t: State)
    requires ShapeOk(g, s) && CompactAddStep(s, p, bits, t)
    ensures ShapeOk(g, t)
  {
    hide PinsOk, StoreOk, DedupMarks, BuiltSha, Taken, StakedOk, Retiring, Emptied, Flushed, Copy;
  }

  lemma CompactFlipShape(g: Content, s: State, count: nat, t: State)
    requires ShapeOk(g, s) && CompactFlipStep(s, count, t)
    ensures ShapeOk(g, t)
  {
    hide PinsOk, StoreOk, ChainOk, ClaimsOk, BuiltSha, Taken, StakedOk, Retiring, Emptied, Flushed;
    FlipStore(s.db, s.chain.value.newPack.value, count);
    FlippedChain(s, s.chain.value.newPack.value, count, t.db);
  }

  lemma SwapReady(g: Content, s: State)
    requires ShapeOk(g, s) && s.span.SwapFlipped?
    ensures s.marked != map[] && In(s, Compact, Build) && s.chain.value.pos.Some?
  {
    hide PinsOk, StoreOk, ClaimsOk, BuildOk, BuiltWithin, ModeOk, PlanOk;
  }

  lemma CompactDeadMarkShape(g: Content, s: State, t: State)
    requires ShapeOk(g, s) && CompactDeadMarkStep(s, t)
    ensures ShapeOk(g, t)
  {
    hide PinsOk, StoreOk, ClaimsOk, ChainOk, Taken, StakedOk, Retiring, Emptied, Flushed;
    SwapReady(g, s);
    TurnStore(s.db, s.marked.Keys, Dead);
    SweptChain(s.db, s.marked, s.chain.value);
  }

  // ---- the wipes ----

  lemma WipeRetiredShape(g: Content, s: State, drop: set<PackId>, t: State)
    requires ShapeOk(g, s) && WipeRetiredStep(s, drop, t)
    ensures ShapeOk(g, t)
  {
    hide PinsOk, StoreOk, ClaimsOk, ChainOk, Taken, StakedOk, Retiring, Emptied, Flushed;
    DropStore(s.db, drop);
    if drop == {} {
      assert t.db.rows == s.db.rows;
    } else {
      var p :| p in drop;
      assert !LivePack(s.db, p);
      DroppedChain(s.db, s.marked, s.chain.value, drop);
      WalkingWhole(s.db, s.marked, s.chain.value);
    }
  }

  /** The chain after its build pack lost its rows. */
  lemma EmptiedChain(db: Store, m: Cohort, c: Chain)
    requires ChainOk(db, m, c) && c.newPack.Some?
    ensures ChainOk(db.(rows := db.rows[c.newPack.value := map[]]), m, c)
  {
    hide BuiltSha, DedupMarks, BuiltWithin, RetireOk;
    var b := db.(rows := db.rows[c.newPack.value := map[]]);
    ElseView(db, b, c.newPack.value, m.Keys);
    BuiltFrame(db, b, m);
    BuildFrame(db, b, m, c, c);
  }

  lemma WipeRowsShape(g: Content, s: State, all: bool, t: State)
    requires ShapeOk(g, s) && WipeRowsStep(s, all, t)
    ensures ShapeOk(g, t)
  {
    hide PinsOk, ChainOk, ClaimsOk, Taken, StakedOk, Retiring, Flushed;
    EmptiedChain(s.db, s.marked, s.chain.value);
    assert StoreOk(t.db) by {
      forall p | LivePack(t.db, p) ensures CountsCover(t.db, p) { assert LivePack(s.db, p); }
    }
  }

  /** The chain after its empty build pack was marked dead. */
  lemma BuriedChain(db: Store, m: Cohort, c: Chain)
    requires ChainOk(db, m, c) && c.newPack.Some?
    ensures ChainOk(Turn(db, {c.newPack.value}, Dead), m, c)
  {
    hide BuiltSha, DedupMarks, BuiltWithin, RetireOk;
    var b := Turn(db, {c.newPack.value}, Dead);
    ElseView(db, b, c.newPack.value, m.Keys);
    BuiltFrame(db, b, m);
    BuildFrame(db, b, m, c, c);
  }

  lemma WipeDeadShape(g: Content, s: State, t: State)
    requires ShapeOk(g, s) && WipeDeadStep(s, t)
    ensures ShapeOk(g, t)
  {
    hide PinsOk, StoreOk, ChainOk, ClaimsOk, Taken, StakedOk, Retiring, Flushed, BuiltSha;
    var n := s.chain.value.newPack.value;
    TurnStore(s.db, {n}, Dead);
    BuriedChain(s.db, s.marked, s.chain.value);
  }

  lemma WipeCursorShape(g: Content, s: State, t: State)
    requires ShapeOk(g, s) && WipeCursorStep(s, t)
    ensures ShapeOk(g, t)
  {
    hide PinsOk, StoreOk, BuiltSha, DedupMarks, BuiltWithin, Taken, StakedOk, Retiring, Flushed;
  }
}
