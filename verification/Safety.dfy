/** What the collector promises, over every run. */
module Safety {
  import opened Repository
  import opened Steps
  import opened Shape
  import opened Marking
  import opened Generations
  import opened Invariant
  import opened Frames

  // ---- the barrier invariant ----

  lemma Extend(g: Content, s: State, y: Sha, x: Sha)
    requires Protected(g, s, y) && Alive(s.db, y) && x in g.links(y)
    ensures Protected(g, s, x)
  {
    var p :| PathTo(g, LiveSet(s.db), p, y) && (p[0] in s.frontier || PendingRoot(g, s.db, s.pending, p[0]));
    assert PathTo(g, LiveSet(s.db), p + [x], x) && (p + [x])[0] == p[0];
  }

  ghost predicate Accounted(g: Content, s: State, x: Sha) {
    || (x in Black(s) && x !in s.frontier)
    || Protected(g, s, x)
    || (g.kind(x).Blob? && Outer(s.db, s.marked, x))
  }

  lemma CoveredAccounted(g: Content, s: State, x: Sha)
    requires Covered(g, s.db, s.marked, Black(s), s.frontier.Keys, s.pending, x)
    ensures Accounted(g, s, x)
  {
    if x in s.frontier || PendingRoot(g, s.db, s.pending, x) { assert PathTo(g, LiveSet(s.db), [x], x); }
  }

  lemma {:induction false} PathAccounted(g: Content, s: State, p: seq<Sha>)
    requires BlobsAreLeaves(g) && Tricolour(g, s)
    requires Path(g, LiveSet(s.db), p) && Accounted(g, s, p[0]) && Alive(s.db, p[|p| - 1])
    ensures Accounted(g, s, p[|p| - 1])
  {
    var x := p[|p| - 1];
    if |p| > 1 {
      var q := p[..|p| - 1];
      var y := q[|q| - 1];
      PathAccounted(g, s, q);
      if y in Black(s) && y !in s.frontier {
        CoveredAccounted(g, s, x);
      } else if Protected(g, s, y) {
        Extend(g, s, y, x);
      }
    }
  }

  /** Every live object reachable from refs, peeled targets, pins or packs outside
      the cohort, whose live copies are all unmarked cohort entries, is reachable
      from the frontier or from pending non-blobs past their cursor. */
  lemma BarrierInvariant(g: Content, s: State)
    requires BlobsAreLeaves(g) && Inv(g, s) && OnDuty(s)
    ensures forall x :: Reachable(g, s, x) && Alive(s.db, x) && !Safe(s.db, s.marked, x) ==> Protected(g, s, x)
  {
    forall x | Reachable(g, s, x) && Alive(s.db, x) && !Safe(s.db, s.marked, x) ensures Protected(g, s, x) {
      var p :| PathTo(g, LiveSet(s.db), p, x) && MarkRoot(g, s, p[0]);
      CoveredAccounted(g, s, p[0]);
      PathAccounted(g, s, p);
      assert forall q :: OuterCopy(s.db, s.marked, x, q) ==> SafeCopy(s.db, s.marked, x, q);
    }
  }

  // ---- swap safety ----

  lemma DrainedSafe(g: Content, s: State, x: Sha)
    requires BlobsAreLeaves(g) && Inv(g, s) && OnDuty(s) && s.frontier == map[] && s.pending == map[]
    requires Reachable(g, s, x) && Alive(s.db, x)
    ensures Safe(s.db, s.marked, x)
  {
    BarrierInvariant(g, s);
    assert forall y :: y !in s.frontier && !PendingRoot(g, s.db, s.pending, y);
  }

  /** A live copy outside the packs about to die. */
  ghost predicate Beyond(db: Store, ids: set<PackId>, x: Sha) {
    exists n :: n !in ids && LiveCopy(db, x, n)
  }

  /** What was copied out of the packs about to die is live outside them. */
  ghost predicate Backed(s: State, ids: set<PackId>) {
    forall x, p :: p in ids && BuiltCopy(s.db, s.marked, x, p) ==> Beyond(s.db, ids, x)
  }

  lemma SweepBacked(g: Content, s: State, ids: set<PackId>)
    requires ShapeOk(g, s) && s.chain.Some? && s.chain.value.phase.Sweep? && Whole(s.db, s.marked)
    requires ids <= s.marked.Keys
    requires !Hollow(s) && !Wipe(s.span) && (BuildPackLive(s.db, s.chain.value) || Unmoved(s))
    ensures Backed(s, ids)
  {
    hide SpanOk, PlanOk, TablesOk, QueueOk, CohortOk, RetireOk, BuiltWithin;
    forall x, p | p in ids && BuiltCopy(s.db, s.marked, x, p) ensures Beyond(s.db, ids, x) {
      assert BuiltSha(s.db, s.marked, x);
      assert s.chain.value.newPack.Some? by { assert BuiltBits(s.marked[p]) != {}; }
      assert LiveCopy(s.db, x, s.chain.value.newPack.value);
    }
  }

  /** Outside a wipe and a chain with a cut wipe, a live build pack holds exactly the built shas. */
  lemma LiveBuildIsExact(g: Content, s: State, n: PackId)
    requires Inv(g, s) && s.chain.Some? && s.chain.value.newPack == Some(n) && LivePack(s.db, n)
    requires !Hollow(s) && !Wipe(s.span) && Whole(s.db, s.marked)
    ensures BuiltExactly(s.db, s.marked, n)
  {
    hide MarkOk, GenOk, SpanOk, PlanOk, TablesOk, QueueOk, CohortOk, RetireOk, BuiltWithin, ModeOk, BuiltSha;
  }

  lemma Survivors(db: Store, ids: set<PackId>, x: Sha)
    ensures Alive(Turn(db, ids, Dead), x) <==> Beyond(db, ids, x)
  {
    if Beyond(db, ids, x) {
      var p :| p !in ids && LiveCopy(db, x, p);
      assert LiveCopy(Turn(db, ids, Dead), x, p);
    }
    if Alive(Turn(db, ids, Dead), x) {
      var p :| LiveCopy(Turn(db, ids, Dead), x, p);
      assert p !in ids && LiveCopy(db, x, p);
    }
  }

  /** A safe object survives the death of packs whose marks were all copied, if its own copies
      out of them are live elsewhere. */
  lemma SafeSurvives(s: State, ids: set<PackId>, x: Sha)
    requires Safe(s.db, s.marked, x) && forall p :: p in ids && BuiltCopy(s.db, s.marked, x, p) ==> Beyond(s.db, ids, x)
    requires ids <= s.marked.Keys && forall p :: p in ids ==> s.marked[p].bitmap <= BuiltBits(s.marked[p])
    ensures Alive(Turn(s.db, ids, Dead), x)
  {
    var p :| SafeCopy(s.db, s.marked, x, p);
    if p in ids { assert BuiltCopy(s.db, s.marked, x, p); }
    Survivors(s.db, ids, x);
  }

  /** What the check span left behind when the dead-mark runs. */
  lemma AtDeadMark(g: Content, s: State, t: State)
    requires Inv(g, s) && DeadMarkStep(s, t)
    ensures OnDuty(s) && Valid(s, s.span.intent) && s.span.intent.ids <= s.marked.Keys
    ensures t.db == Turn(s.db, s.span.intent.ids, Dead)
    ensures !Hollow(s) ==> Backed(s, s.span.intent.ids)
  {
    hide MarkOk, GenOk, PlanOk, TablesOk, TrustOk, Lossy, FallbackPack, BuildOk, BuiltWithin, CohortOk, Backed;
    if !Hollow(s) { SweepBacked(g, s, s.span.intent.ids); }
  }

  /** What the marking and the copying together leave to a retirement: of the reachable
      objects, those copied out of the retired packs. */
  lemma ReachableKept(g: Content, s: State, ids: set<PackId>)
    requires BlobsAreLeaves(g) && Inv(g, s) && OnDuty(s) && s.frontier == map[] && s.pending == map[]
    requires ids <= s.marked.Keys && forall p :: p in ids ==> s.marked[p].bitmap <= BuiltBits(s.marked[p])
    ensures (forall x :: Reachable(g, s, x) && Alive(s.db, x) ==> Alive(Turn(s.db, ids, Dead), x)) <==>
      forall x, p :: Reachable(g, s, x) && p in ids && BuiltCopy(s.db, s.marked, x, p) ==> Beyond(s.db, ids, x)
  {
    hide Inv, Reachable, Safe, Beyond, Turn;
    var after := Turn(s.db, ids, Dead);
    forall x ensures Alive(after, x) <==> Beyond(s.db, ids, x) { Survivors(s.db, ids, x); }
    if forall x, p :: Reachable(g, s, x) && p in ids && BuiltCopy(s.db, s.marked, x, p) ==> Beyond(s.db, ids, x) {
      forall x | Reachable(g, s, x) && Alive(s.db, x) ensures Alive(after, x) {
        DrainedSafe(g, s, x);
        SafeSurvives(s, ids, x);
      }
    }
    forall x, p | p in ids && BuiltCopy(s.db, s.marked, x, p) ensures Alive(s.db, x) { assert LiveCopy(s.db, x, p); }
  }

  /** A fenced swap, of a torn chain or not, takes no last live copy of a reachable object if
      and only if every reachable object copied out of a retired pack is live outside them. */
  lemma SwapExact(g: Content, s: State, t: State)
    requires BlobsAreLeaves(g) && Inv(g, s) && DeadMarkStep(s, t) && !s.span.intent.fallback
    ensures (forall x :: Reachable(g, s, x) && Alive(s.db, x) ==> Alive(t.db, x)) <==>
      forall x, p :: Reachable(g, s, x) && p in s.span.intent.ids && BuiltCopy(s.db, s.marked, x, p) ==>
        Beyond(s.db, s.span.intent.ids, x)
  {
    hide Inv, Reachable, Lossy, Backed, Beyond, BuiltCopy, Alive, Turn;
    AtDeadMark(g, s, t);
    ReachableKept(g, s, s.span.intent.ids);
  }

  /** A fenced swap never removes the last live copy of a reachable object,
      whichever packs the subset test retires. */
  lemma SwapSafe(g: Content, s: State, t: State, x: Sha)
    requires BlobsAreLeaves(g) && Inv(g, s) && DeadMarkStep(s, t) && !s.span.intent.fallback && !Hollow(s)
    requires Reachable(g, s, x) && Alive(s.db, x)
    ensures Alive(t.db, x)
  {
    hide Inv, Reachable, Lossy, Beyond, BuiltCopy, Alive, Turn;
    AtDeadMark(g, s, t);
    SwapExact(g, s, t);
  }

  lemma AtSweepDeadMark(g: Content, s: State, t: State)
    requires Inv(g, s) && SweepDeadMarkStep(s, t)
    ensures t.db == Turn(s.db, s.marked.Keys, Dead)
    ensures if Whole(s.db, s.marked) then
        && s.frontier == map[] && s.pending == map[] && (!Missed(s) ==> OnDuty(s))
        && (!Hollow(s) ==> Backed(s, s.marked.Keys))
        && forall p :: p in s.marked ==> s.marked[p].bitmap <= BuiltBits(s.marked[p])
      else forall p :: p in s.marked ==> !LivePack(s.db, p)
  {
    hide MarkOk, GenOk, PlanOk, TablesOk, TrustOk, BuildOk, NewPackOk, RetireOk;
    if Whole(s.db, s.marked) && !Hollow(s) { SweepBacked(g, s, s.marked.Keys); }
  }

  /** The same for the flag-off sweep, of a chain that missed no push. */
  lemma FlagOffSweepExact(g: Content, s: State, t: State)
    requires BlobsAreLeaves(g) && Inv(g, s) && SweepDeadMarkStep(s, t) && !Missed(s)
    requires Whole(s.db, s.marked)
    ensures (forall x :: Reachable(g, s, x) && Alive(s.db, x) ==> Alive(t.db, x)) <==>
      forall x, p :: Reachable(g, s, x) && BuiltCopy(s.db, s.marked, x, p) ==> Beyond(s.db, s.marked.Keys, x)
  {
    hide Inv, Reachable, Backed, Beyond, Alive, Turn;
    AtSweepDeadMark(g, s, t);
    ReachableKept(g, s, s.marked.Keys);
  }

  /** The flag-off sweep has the swap's guarantee under its version test. */
  lemma FlagOffSweepSafe(g: Content, s: State, t: State, x: Sha)
    requires BlobsAreLeaves(g) && Inv(g, s) && SweepDeadMarkStep(s, t) && !Torn(s)
    requires Reachable(g, s, x) && Alive(s.db, x)
    ensures Alive(t.db, x)
  {
    hide Inv, Reachable, Beyond, Turn;
    AtSweepDeadMark(g, s, t);
    if Whole(s.db, s.marked) {
      FlagOffSweepExact(g, s, t);
    } else {
      Survivors(s.db, s.marked.Keys, x);
      assert Beyond(s.db, s.marked.Keys, x) by { Unswept(s, x); }
    }
  }

  lemma Unswept(s: State, x: Sha)
    requires Alive(s.db, x) && forall p :: p in s.marked ==> !LivePack(s.db, p)
    ensures Beyond(s.db, s.marked.Keys, x)
  {
    var p :| LiveCopy(s.db, x, p);
    assert p !in s.marked.Keys;
  }

  // ---- lossless paths ----

  /** Every entry of the packs about to die was copied out of one of them, or has a live copy
      outside them. */
  ghost predicate CopiedOut(s: State, ids: set<PackId>) {
    && Whole(s.db, s.marked) && ids <= s.marked.Keys
    && forall x, p :: p in ids && LiveCopy(s.db, x, p) ==>
         Beyond(s.db, ids, x) || exists q :: q in ids && BuiltCopy(s.db, s.marked, x, q)
  }

  /** Then their death keeps the set of live shas if and only if what was copied is live
      outside them. */
  lemma LosslessExact(s: State, ids: set<PackId>)
    requires CopiedOut(s, ids)
    ensures (forall x :: Alive(Turn(s.db, ids, Dead), x) <==> Alive(s.db, x)) <==> Backed(s, ids)
  {
    hide Turn, BuiltCopy;
    forall x ensures Alive(Turn(s.db, ids, Dead), x) <==> Beyond(s.db, ids, x) { Survivors(s.db, ids, x); }
    forall x, p | p in ids && BuiltCopy(s.db, s.marked, x, p) ensures Alive(s.db, x) { BuiltAlive(s, x, p); }
    if Backed(s, ids) {
      forall x | Alive(s.db, x) ensures Beyond(s.db, ids, x) {
        var p :| LiveCopy(s.db, x, p);
      }
    }
  }

  lemma BuiltAlive(s: State, x: Sha, p: PackId)
    requires Whole(s.db, s.marked) && BuiltCopy(s.db, s.marked, x, p)
    ensures Alive(s.db, x)
  {
    assert LiveCopy(s.db, x, p);
  }

  lemma FallbackCopied(g: Content, s: State, t: State)
    requires Inv(g, s) && DeadMarkStep(s, t) && s.span.intent.fallback
    ensures CopiedOut(s, s.span.intent.ids)
  {
    hide Inv, Backed, Turn;
    AtDeadMark(g, s, t);
    var ids := s.span.intent.ids;
    forall x, p | p in ids && LiveCopy(s.db, x, p)
      ensures Beyond(s.db, ids, x) || exists q :: q in ids && BuiltCopy(s.db, s.marked, x, q)
    {
      assert FallbackPack(s.db, s.marked, p);
      if Outer(s.db, s.marked, x) {
        var q :| OuterCopy(s.db, s.marked, x, q);
      } else {
        assert BuiltCopy(s.db, s.marked, x, p);
      }
    }
  }

  lemma FullSwapCopied(g: Content, s: State, t: State)
    requires Inv(g, s) && DeadMarkStep(s, t) && !s.span.intent.fallback && !s.span.intent.lossy
    ensures CopiedOut(s, s.span.intent.ids)
  {
    hide MarkOk, GenOk, PlanOk, SpanOk, ChainOk, TrustOk, Backed, Turn, Beyond;
    AtDeadMark(g, s, t);
    forall x, p | p in s.span.intent.ids && LiveCopy(s.db, x, p) ensures BuiltCopy(s.db, s.marked, x, p) {
      assert CountsCover(s.db, p);
    }
  }

  lemma CompactCopied(g: Content, s: State, t: State)
    requires Inv(g, s) && CompactDeadMarkStep(s, t)
    ensures CopiedOut(s, s.marked.Keys)
  {
    hide MarkOk, GenOk, PlanOk, TablesOk, CohortOk, RetireOk, BuiltWithin, Backed, Turn, Beyond, TrustOk, QueueOk;
    forall x, p | p in s.marked.Keys && LiveCopy(s.db, x, p)
      ensures exists q :: q in s.marked.Keys && BuiltCopy(s.db, s.marked, x, q)
    {
      var q :| q in s.marked && Copy(s.db, x, q) && s.db.rows[q][x] in s.marked[q].bitmap;
      assert BuiltCopy(s.db, s.marked, x, q);
    }
  }

  /** The bounded-retry fallback, of a torn chain or not, keeps the set of live shas if and
      only if every object copied out of a retired pack is live outside them. */
  lemma FallbackExact(g: Content, s: State, t: State)
    requires Inv(g, s) && DeadMarkStep(s, t) && s.span.intent.fallback
    ensures (forall x :: Alive(t.db, x) <==> Alive(s.db, x)) <==> Backed(s, s.span.intent.ids)
  {
    hide Inv, Backed, Turn, CopiedOut, Alive;
    FallbackCopied(g, s, t);
    LosslessExact(s, s.span.intent.ids);
  }

  /** .. and that is so unless a wipe of the build was cut. */
  lemma FallbackLossless(g: Content, s: State, t: State)
    requires Inv(g, s) && DeadMarkStep(s, t) && s.span.intent.fallback && !Hollow(s)
    ensures forall x :: Alive(t.db, x) <==> Alive(s.db, x)
  {
    hide Inv, Backed, Alive, Turn;
    AtDeadMark(g, s, t);
    FallbackExact(g, s, t);
  }

  /** A swap whose build missed no entry is as lossless. */
  lemma FullSwapExact(g: Content, s: State, t: State)
    requires Inv(g, s) && DeadMarkStep(s, t) && !s.span.intent.fallback && !s.span.intent.lossy
    ensures (forall x :: Alive(t.db, x) <==> Alive(s.db, x)) <==> Backed(s, s.span.intent.ids)
  {
    hide Inv, Backed, Turn, CopiedOut, Alive;
    FullSwapCopied(g, s, t);
    LosslessExact(s, s.span.intent.ids);
  }

  lemma FullSwapLossless(g: Content, s: State, t: State)
    requires Inv(g, s) && DeadMarkStep(s, t) && !s.span.intent.fallback && !s.span.intent.lossy && !Hollow(s)
    ensures forall x :: Alive(t.db, x) <==> Alive(s.db, x)
  {
    hide Inv, Backed, Alive, Turn;
    AtDeadMark(g, s, t);
    FullSwapExact(g, s, t);
  }

  /** The compaction swap too. */
  lemma CompactExact(g: Content, s: State, t: State)
    requires Inv(g, s) && CompactDeadMarkStep(s, t)
    ensures (forall x :: Alive(t.db, x) <==> Alive(s.db, x)) <==> Backed(s, s.marked.Keys)
  {
    hide Inv, Backed, Turn, CopiedOut, Alive;
    CompactCopied(g, s, t);
    LosslessExact(s, s.marked.Keys);
  }

  lemma CompactLossless(g: Content, s: State, t: State)
    requires Inv(g, s) && CompactDeadMarkStep(s, t) && !Hollow(s)
    ensures forall x :: Alive(t.db, x) <==> Alive(s.db, x)
  {
    hide Inv, Alive, Turn;
    CompactExact(g, s, t);
    CompactBacked(g, s);
  }

  lemma CompactBacked(g: Content, s: State)
    requires Inv(g, s) && s.span.SwapFlipped? && !Hollow(s)
    ensures Backed(s, s.marked.Keys)
  {
    hide Inv, Beyond, BuiltCopy;
    forall x, p | p in s.marked.Keys && BuiltCopy(s.db, s.marked, x, p)
      ensures Beyond(s.db, s.marked.Keys, x) { InBuildPack(g, s, x, p); }
  }

  lemma InBuildPack(g: Content, s: State, x: Sha, p: PackId)
    requires Inv(g, s) && s.span.SwapFlipped? && !Hollow(s) && BuiltCopy(s.db, s.marked, x, p)
    ensures Beyond(s.db, s.marked.Keys, x)
  {
    hide MarkOk, GenOk, PlanOk, TablesOk, CohortOk, RetireOk, BuiltWithin, QueueOk;
    assert BuiltSha(s.db, s.marked, x);
    assert LiveCopy(s.db, x, s.chain.value.newPack.value);
  }

  /** A build pack dropped while the cohort stands held copies only. */
  lemma BuildPackSpare(g: Content, s: State, n: PackId, t: State)
    requires ShapeOk(g, s) && s.chain.Some? && s.chain.value.newPack == Some(n) && Whole(s.db, s.marked)
    requires forall x, p :: p != n && LiveCopy(s.db, x, p) ==> LiveCopy(t.db, x, p)
    requires forall x, p :: LiveCopy(t.db, x, p) ==> LiveCopy(s.db, x, p)
    ensures forall x :: Alive(t.db, x) <==> Alive(s.db, x)
  {
    hide SpanOk, PlanOk, TablesOk, TrustOk, QueueOk, CohortOk, RetireOk, ModeOk, BuiltWithin;
    forall x | Alive(s.db, x) ensures Alive(t.db, x) {
      var p :| LiveCopy(s.db, x, p);
      if p == n {
        var q :| BuiltCopy(s.db, s.marked, x, q);
        assert LiveCopy(s.db, x, q);
      }
    }
  }

  /** A wipe drops the build pack's rows only while the cohort still holds everything in
      them, even in a torn chain. */
  lemma WipeLossless(g: Content, s: State, all: bool, t: State)
    requires Inv(g, s) && WipeRowsStep(s, all, t)
    ensures forall x :: Alive(t.db, x) <==> Alive(s.db, x)
  {
    hide ShapeOk, MarkOk, GenOk;
    assert forall x, p :: LiveCopy(t.db, x, p) ==> LiveCopy(s.db, x, p);
    if LivePack(s.db, s.chain.value.newPack.value) {
      BuildPackSpare(g, s, s.chain.value.newPack.value, t);
    } else {
      assert forall x, p :: LiveCopy(s.db, x, p) ==> LiveCopy(t.db, x, p);
    }
  }

  // ---- every other step only adds live objects ----

  /** Packs are retired. */
  predicate Retires(a: Action) {
    a.DeadMark? || a.SweepDeadMark? || a.CompactDeadMark?
  }

  predicate Destructive(a: Action) {
    Retires(a) || a.WipeRows? || GivesBack(a)
  }

  ghost predicate CopiesStay(db: Store, db': Store) {
    forall x, p :: LiveCopy(db, x, p) ==> LiveCopy(db', x, p)
  }

  lemma UntouchedCopies(g: Content, s: State, a: Action, t: State)
    requires Step(g, s, a, t) && !TouchesStore(a)
    ensures CopiesStay(s.db, t.db)
  {
    hide Step;
    StoreFrame(g, s, a, t);
  }

  lemma EnvCopies(g: Content, s: State, a: Action, t: State)
    requires EnvFamily(g, s, a, t) && TouchesStore(a)
    ensures CopiesStay(s.db, t.db)
  {
    hide Ordinals, StopStep, ScratchStep, BumpVersionStep, PinStep, UnpinStep;
  }

  lemma PlainCopies(g: Content, s: State, a: Action, t: State)
    requires PlainFamily(g, s, a, t) && !a.PlainDemote?
    ensures CopiesStay(s.db, t.db)
  {
  }

  lemma WipeCopies(g: Content, s: State, a: Action, t: State)
    requires SpanOk(g, s) && WipeFamily(g, s, a, t) && !a.WipeRows?
    ensures CopiesStay(s.db, t.db)
  {
  }

  lemma PushCopies(g: Content, s: State, a: Action, t: State)
    requires PushFamily(g, s, a, t) && TouchesStore(a) && !a.PushDemote?
    ensures CopiesStay(s.db, t.db)
  {
    hide Promotable, PushPendingStep, PushForgetStep, PushFeedStep, PushLandStep, PushDeleteStep;
  }

  lemma BuildCopies(g: Content, s: State, a: Action, t: State)
    requires BuildFamily(g, s, a, t) && TouchesStore(a)
    ensures CopiesStay(s.db, t.db)
  {
    hide BuiltSha, Ordinals, Whole;
  }

  lemma RetireCopies(g: Content, s: State, a: Action, t: State)
    requires SpanOk(g, s) && RetireFamily(g, s, a, t) && !a.DeadMark?
    ensures CopiesStay(s.db, t.db)
  {
  }

  lemma FinishCopies(g: Content, s: State, a: Action, t: State)
    requires SpanOk(g, s) && FinishFamily(g, s, a, t) && !a.SweepDeadMark? && !a.CompactDeadMark?
    ensures CopiesStay(s.db, t.db)
  {
  }

  lemma CopiesKept(g: Content, s: State, a: Action, t: State)
    requires SpanOk(g, s) && Step(g, s, a, t) && !Destructive(a)
    ensures CopiesStay(s.db, t.db)
  {
    hide SpanOk, EnvFamily, PlainFamily, PushFamily, WalkFamily, PageFamily, BuildFamily, RetireFamily, WipeFamily,
      FinishFamily, CopiesStay;
    if !TouchesStore(a) { UntouchedCopies(g, s, a, t); }
    else if EnvAction(a) { EnvCopies(g, s, a, t); }
    else if PlainAction(a) { PlainCopies(g, s, a, t); }
    else if PushAction(a) { PushCopies(g, s, a, t); }
    else if BuildAction(a) { BuildCopies(g, s, a, t); }
    else if RetireAction(a) { RetireCopies(g, s, a, t); }
    else if WipeAction(a) { WipeCopies(g, s, a, t); }
    else { FinishCopies(g, s, a, t); }
  }

  /** Destructive writes that find nothing to lose. */
  predicate Sparing(s: State, a: Action) {
    a.WipeRows? || a.CompactDeadMark? || (a.DeadMark? && s.span.Intended?)
  }

  lemma SparingLossless(g: Content, s: State, a: Action, t: State)
    requires Inv(g, s) && Step(g, s, a, t) && Sparing(s, a) && (Retires(a) ==> !Hollow(s))
    ensures forall x :: Alive(t.db, x) <==> Alive(s.db, x)
  {
    hide Inv, WipeRowsStep, CompactDeadMarkStep, DeadMarkStep, Alive;
    if a.WipeRows? {
      WipeLossless(g, s, a.all, t);
    } else if a.CompactDeadMark? {
      CompactLossless(g, s, t);
    } else {
      IntendedIsFull(s, t);
      if s.span.intent.fallback { FallbackLossless(g, s, t); } else { FullSwapLossless(g, s, t); }
    }
  }

  lemma IntendedIsFull(s: State, t: State)
    requires s.span.Intended? && DeadMarkStep(s, t)
    ensures !s.span.intent.lossy
  {
  }

  lemma RetiredSafe(g: Content, s: State, a: Action, t: State, x: Sha)
    requires BlobsAreLeaves(g) && Inv(g, s) && Step(g, s, a, t) && Retires(a) && !Sparing(s, a) && !Torn(s)
    requires Reachable(g, s, x) && Alive(s.db, x)
    ensures Alive(t.db, x)
  {
    hide Inv, Reachable, Alive, SweepDeadMarkStep;
    if a.SweepDeadMark? {
      FlagOffSweepSafe(g, s, t, x);
    } else {
      BumpedIsSwap(g, s);
      SwapSafe(g, s, t, x);
    }
  }

  /** No step but giving back a promotion takes the last live copy of a reachable object,
      unless a torn chain retires packs. */
  lemma StepSafe(g: Content, s: State, a: Action, t: State)
    requires BlobsAreLeaves(g) && Inv(g, s) && Step(g, s, a, t) && !GivesBack(a) && (Retires(a) ==> !Torn(s))
    ensures forall x :: Reachable(g, s, x) && Alive(s.db, x) ==> Alive(t.db, x)
  {
    hide Inv, Reachable, Step;
    if !Destructive(a) {
      SpanOfInv(g, s);
      CopiesKept(g, s, a, t);
    } else if Sparing(s, a) {
      SparingLossless(g, s, a, t);
    } else {
      forall x | Reachable(g, s, x) && Alive(s.db, x) ensures Alive(t.db, x) { RetiredSafe(g, s, a, t, x); }
    }
  }

  lemma SpanOfInv(g: Content, s: State)
    requires Inv(g, s)
    ensures SpanOk(g, s)
  {
    hide MarkOk, GenOk, SpanOk;
  }

  lemma BumpedIsSwap(g: Content, s: State)
    requires Inv(g, s) && s.span.Bumped?
    ensures !s.span.intent.fallback
  {
    hide MarkOk, GenOk, PlanOk, TablesOk, TrustOk, ChainOk, Lossy, FallbackPack;
  }

  /** Giving back a promotion restores the tables it started from. */
  lemma PromotionUndone(g: Content, s: State, p: PackId, t: State, u: State)
    requires PushPromoteStep(s, p, t) && PushDemoteStep(t, u)
    ensures u == s.(span := Demoted(p))
  {
    assert u.db.packs == s.db.packs;
  }

  // ---- retirement ----

  lemma EnvSpares(g: Content, s: State, a: Action, t: State, p: PackId)
    requires EnvFamily(g, s, a, t) && LivePack(s.db, p)
    ensures LivePack(t.db, p)
  {
    hide Tears, Ordinals, RefRoot;
  }

  lemma PushSpares(g: Content, s: State, a: Action, t: State, p: PackId)
    requires SpanOk(g, s) && PushFamily(g, s, a, t) && LivePack(s.db, p) && (s.span.Promoted? ==> s.span.pack != p)
    ensures LivePack(t.db, p)
  {
    hide Alive, Upsert, Taken, StakedOk, Retiring, Emptied, Flushed;
  }

  lemma BuildSpares(g: Content, s: State, a: Action, t: State, p: PackId)
    requires BuildFamily(g, s, a, t) && LivePack(s.db, p) && s.chain.Some? && s.chain.value.newPack != Some(p)
    ensures LivePack(t.db, p)
  {
    hide BuiltSha, Ordinals, Whole, Exhausted;
  }

  lemma WalkSpares(g: Content, s: State, a: Action, t: State)
    requires WalkFamily(g, s, a, t)
    ensures t.db == s.db
  {
    WalkFrame(g, s, a, t);
  }

  lemma PageSpares(g: Content, s: State, a: Action, t: State)
    requires PageFamily(g, s, a, t)
    ensures t.db == s.db
  {
    PageFrame(g, s, a, t);
  }

  lemma NoPlainPush(g: Content, s: State, a: Action, t: State)
    requires SpanOk(g, s) && BarrierOn(s)
    ensures !PlainFamily(g, s, a, t)
  {
    hide Taken, StakedOk, Retiring, Emptied, Flushed, Alive;
  }

  lemma WipeSpares(g: Content, s: State, a: Action, t: State, p: PackId)
    requires WipeFamily(g, s, a, t) && LivePack(s.db, p) && s.chain.Some? && s.chain.value.newPack != Some(p)
    ensures LivePack(t.db, p)
  {
  }

  lemma RetireSpares(g: Content, s: State, a: Action, t: State, p: PackId)
    requires RetireFamily(g, s, a, t) && LivePack(s.db, p) && !a.DeadMark?
    ensures LivePack(t.db, p)
  {
  }

  lemma NoOtherEnding(g: Content, s: State, a: Action, t: State)
    requires SpanOk(g, s) && BarrierOn(s)
    ensures !FinishFamily(g, s, a, t)
  {
    hide Taken, StakedOk, Retiring, Emptied, Flushed, DedupMarks;
  }

  lemma OthersSpare(g: Content, s: State, a: Action, t: State, p: PackId)
    requires SpanOk(g, s) && Step(g, s, a, t) && BarrierOn(s) && !a.DeadMark?
    requires LivePack(s.db, p) && (s.span.Promoted? ==> s.span.pack != p) && s.chain.value.newPack != Some(p)
    ensures LivePack(t.db, p)
  {
    hide SpanOk, EnvFamily, PlainFamily, PushFamily, WalkFamily, PageFamily, BuildFamily, RetireFamily, WipeFamily,
      FinishFamily;
    if EnvAction(a) { EnvSpares(g, s, a, t, p); }
    else if PlainAction(a) { NoPlainPush(g, s, a, t); }
    else if PushAction(a) { PushSpares(g, s, a, t, p); }
    else if WalkAction(a) { WalkSpares(g, s, a, t); }
    else if PageAction(a) { PageSpares(g, s, a, t); }
    else if BuildAction(a) { BuildSpares(g, s, a, t, p); }
    else if RetireAction(a) { RetireSpares(g, s, a, t, p); }
    else if WipeAction(a) { WipeSpares(g, s, a, t, p); }
    else { NoOtherEnding(g, s, a, t); }
  }

  lemma KilledHere(g: Content, s: State, a: Action, t: State, p: PackId)
    requires SpanOk(g, s) && Step(g, s, a, t) && BarrierOn(s) && s.chain.value.newPack != Some(p)
    requires (s.span.Promoted? ==> s.span.pack != p) && LivePack(s.db, p) && !LivePack(t.db, p)
    ensures a.DeadMark? && DeadMarkStep(s, t)
  {
    hide SpanOk;
    if !a.DeadMark? { OthersSpare(g, s, a, t, p); }
  }

  lemma CohortApart(g: Content, s: State, p: PackId)
    requires Inv(g, s) && s.chain.Some? && p in s.marked
    ensures SpanOk(g, s) && s.chain.value.newPack != Some(p) && (s.span.Promoted? ==> s.span.pack != p)
  {
    hide MarkOk, GenOk, PlanOk, TablesOk, TrustOk, CohortOk, BuildOk, RetireOk, BuiltWithin, ModeOk;
  }

  lemma Validated(g: Content, s: State, t: State)
    requires Inv(g, s) && DeadMarkStep(s, t)
    ensures BarrierOn(s) && Valid(s, s.span.intent)
    ensures s.chain.value.retire == Some(s.span.intent) && (s.span.intent.lossy ==> s.span.Bumped?)
    ensures forall p :: LivePack(s.db, p) && !LivePack(t.db, p) ==> p in s.span.intent.ids
  {
    hide MarkOk, GenOk, PlanOk, TablesOk, TrustOk, ChainOk, Lossy, FallbackPack;
  }

  /** A live cohort pack dies only in a span that validated it in this very state,
      with the epoch already moved if the retirement loses anything. */
  lemma RetirementValidated(g: Content, s: State, a: Action, t: State, p: PackId)
    requires Inv(g, s) && Step(g, s, a, t) && BarrierOn(s) && p in s.marked && LivePack(s.db, p) && !LivePack(t.db, p)
    ensures a.DeadMark? && DeadMarkStep(s, t) && p in s.span.intent.ids && Valid(s, s.span.intent)
    ensures s.chain.value.retire == Some(s.span.intent) && (s.span.intent.lossy ==> s.span.Bumped?)
  {
    hide Inv, SpanOk, Step, Valid;
    CohortApart(g, s, p);
    KilledHere(g, s, a, t, p);
    Validated(g, s, t);
  }
}
