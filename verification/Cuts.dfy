/** Cuts: an error after a write of a span leaves it half done.  Every cut keeps the
    invariant, and all but two families keep the chain sound: a wipe cut where its chain
    still trusts the build pack, and a push cut before it moves `refs_version` under a
    flag-off chain.  For those the lemmas say exactly what a later retirement loses. */
module Cuts {
  import opened Repository
  import opened Steps
  import opened Shape
  import opened Shaping
  import opened Marking
  import opened Generations
  import opened Invariant
  import opened Safety

  // ---- cut wipes ----

  /** The tables a cut wipe leaves are as sound as any others exactly when the chain no
      longer trusts the build pack. */
  lemma WipeCutExact(g: Content, s: State, t: State)
    requires Inv(g, s) && Wipe(s.span) && !Torn(s) && t == s.(span := Idle, plan := None)
    ensures Inv(g, t) <==> !Tears(s)
  {
    hide MarkOk, GenOk, Trusted, ClaimsOk, TablesOk, PlanOk, QueueOk, CohortOk, RetireOk, ModeOk, NewPackOk,
      BuiltWithin;
    if Tears(s) {
      UntrustedClaims(s);
    } else {
      StopKeeps(g, s, t);
    }
  }

  /** Only a build pack that went live, that may still go live on a claim, or that a
      flag-off sweep takes to be live is trusted. */
  lemma DeadPackUntrusted(g: Content, s: State, t: State)
    requires WipeDeadStep(s, t) && s.span.all && !(Unmoved(s) && s.chain.value.phase.Sweep?)
    ensures !Tears(t)
  {
    hide BuiltSha;
  }

  /** Nor can a dead build pack go live or be swept on. */
  lemma DeadPackRefused(s: State, n: PackId, t: State)
    requires s.chain.Some? && s.chain.value.newPack == Some(n) && Gone(s.db, n)
    ensures !RecordSwapStep(s, t) && (forall ids :: !RecordFallbackStep(s, ids, t))
    ensures forall count :: !FlipLiveStep(s, count, t) && !CompactFlipStep(s, count, t)
  {
  }

  /** A live copy that neither the retired packs nor the build pack held. */
  ghost predicate Elsewhere(s: State, ids: set<PackId>, x: Sha) {
    exists p :: LiveCopy(s.db, x, p) && p !in ids && s.chain.Some? && s.chain.value.newPack != Some(p)
  }

  lemma WipedCopies(s: State, ids: set<PackId>, db: Store, x: Sha)
    requires s.chain.Some? && s.chain.value.newPack.Some?
    requires SameElse(s.db, db, s.chain.value.newPack.value) && !Copy(db, x, s.chain.value.newPack.value)
    ensures Alive(Turn(db, ids, Dead), x) <==> Elsewhere(s, ids, x)
  {
    var n := s.chain.value.newPack.value;
    if Alive(Turn(db, ids, Dead), x) {
      var p :| LiveCopy(Turn(db, ids, Dead), x, p);
      assert LiveCopy(s.db, x, p) && p !in ids && p != n;
    }
    if Elsewhere(s, ids, x) {
      var p :| LiveCopy(s.db, x, p) && p !in ids && p != n;
      assert LiveCopy(Turn(db, ids, Dead), x, p);
    }
  }

  ghost predicate Recorded(d: State, ids: set<PackId>, u: State) {
    (RecordSwapStep(d, u) && ids == SwapIds(d.marked)) || RecordFallbackStep(d, ids, u)
  }

  ghost predicate Executed(u: State, v: State) {
    DeadMarkStep(u, v) || exists b :: BumpEpochStep(u, b) && DeadMarkStep(b, v)
  }

  /** The packs of `ids` are retired from d to v: by the swap or the fallback of a barrier
      sweep, or by the flag-off sweep. */
  ghost predicate Retired(d: State, ids: set<PackId>, v: State) {
    || (exists u :: Recorded(d, ids, u) && Executed(u, v))
    || (ids == d.marked.Keys && exists u :: SweepBumpStep(d, u) && SweepDeadMarkStep(u, v))
  }

  lemma RecordedSpan(d: State, ids: set<PackId>, u: State)
    requires Recorded(d, ids, u)
    ensures u.db == d.db && u.span.Intended? && u.span.intent.ids == ids && ids <= d.marked.Keys
  {
    hide Lossy, Whole, BuildPackLive, FallbackPack;
    if RecordFallbackStep(d, ids, u) { FallbackIds(d, ids); }
  }

  lemma FallbackIds(d: State, ids: set<PackId>)
    requires forall p :: p in ids <==> FallbackPack(d.db, d.marked, p)
    ensures ids <= d.marked.Keys
  {
  }

  lemma ExecutedStore(u: State, v: State)
    requires Executed(u, v) && u.span.Intended?
    ensures v.db == Turn(u.db, u.span.intent.ids, Dead)
  {
    hide Turn;
  }

  lemma RetiredStore(d: State, ids: set<PackId>, v: State)
    requires Retired(d, ids, v)
    ensures v.db == Turn(d.db, ids, Dead) && ids <= d.marked.Keys
  {
    hide Recorded, Executed, Turn;
    if exists u :: Recorded(d, ids, u) && Executed(u, v) {
      var u :| Recorded(d, ids, u) && Executed(u, v);
      RecordedSpan(d, ids, u);
      ExecutedStore(u, v);
    }
  }

  /** A wipe cut after the row delete, then, perhaps after a drain, the retirement: what
      survives is what had a live copy outside the retired packs and the build pack. */
  lemma HalfWipeRetired(g: Content, s: State, all: bool, w: State, t: State, d: State, ids: set<PackId>, v: State,
                        x: Sha)
    requires WipeRowsStep(s, all, w) && StopStep(w, t) && d.db == t.db && Retired(d, ids, v)
    ensures Alive(v.db, x) <==> Elsewhere(s, ids, x)
  {
    hide Tears, SetState, Alive, Elsewhere, Whole, Keep, Retired;
    RetiredStore(d, ids, v);
    WipedCopies(s, ids, d.db, x);
  }

  /** The same under a flag-off chain, whether or not the pack was marked dead. */
  lemma HalfWipeSwept(g: Content, s: State, w: State, w': State, t: State, u: State, v: State, x: Sha)
    requires WipeRowsStep(s, true, w) && (w' == w || WipeDeadStep(w, w')) && StopStep(w', t)
    requires SweepBumpStep(t, u) && SweepDeadMarkStep(u, v)
    ensures Alive(v.db, x) <==> Elsewhere(s, s.marked.Keys, x)
  {
    hide Tears, Alive, Elsewhere, Whole, Keep;
    var n := s.chain.value.newPack.value;
    assert !Copy(u.db, x, n);
    if w' == w || w'.db == w.db {
      WipedCopies(s, s.marked.Keys, u.db, x);
    } else {
      BuriedCopies(s, s.marked.Keys, w.db, x);
    }
  }

  lemma BuriedCopies(s: State, ids: set<PackId>, db: Store, x: Sha)
    requires s.chain.Some? && s.chain.value.newPack.Some?
    requires SameElse(s.db, db, s.chain.value.newPack.value) && !Copy(db, x, s.chain.value.newPack.value)
    ensures Alive(Turn(Turn(db, {s.chain.value.newPack.value}, Dead), ids, Dead), x) <==> Elsewhere(s, ids, x)
  {
    WipedCopies(s, ids, Turn(db, {s.chain.value.newPack.value}, Dead), x);
  }

  lemma ResumedCopies(db0: Store, n: PackId, rows: map<Sha, nat>, ids: set<PackId>, db: Store, x: Sha)
    requires !LivePack(db0, n) && SameElse(db0, db, n) && n !in ids && LivePack(db, n) && n in db.rows
    requires db.rows[n] == rows
    ensures Alive(Turn(db, ids, Dead), x) <==> x in rows || exists p :: LiveCopy(db0, x, p) && p !in ids
  {
    if x in rows { assert LiveCopy(Turn(db, ids, Dead), x, n); }
    if exists p :: LiveCopy(db0, x, p) && p !in ids {
      var p :| LiveCopy(db0, x, p) && p !in ids;
      assert LiveCopy(Turn(db, ids, Dead), x, p);
    }
    if Alive(Turn(db, ids, Dead), x) {
      var p :| LiveCopy(Turn(db, ids, Dead), x, p);
      if p != n { assert LiveCopy(db0, x, p) && p !in ids; }
    }
  }

  /** A build resumed from a cursor that outlived its rows posts `rows` and goes live. */
  ghost predicate Resumed(t: State, rows: map<Sha, nat>, count: nat, f: State) {
    exists b :: BuildRowsStep(t, rows, b) && (FlipLiveStep(b, count, f) || CompactFlipStep(b, count, f))
  }

  lemma ResumedStore(t: State, rows: map<Sha, nat>, count: nat, f: State)
    requires Resumed(t, rows, count, f) && t.chain.Some? && t.chain.value.newPack.Some?
    requires t.chain.value.newPack.value in t.db.rows && t.db.rows[t.chain.value.newPack.value] == map[]
    requires t.chain.value.newPack.value !in t.marked
    ensures var n := t.chain.value.newPack.value;
      SameElse(t.db, f.db, n) && LivePack(f.db, n) && n in f.db.rows && f.db.rows[n] == rows
    ensures f.chain == t.chain && f.marked == t.marked
    ensures forall x :: BuiltSha(t.db, t.marked, x) && x !in rows ==> x in Claims(t.chain.value)
  {
    hide BuiltSha, Exhausted, BuildRowsStep, FlipLiveStep, CompactFlipStep;
    var n := t.chain.value.newPack.value;
    var b :| BuildRowsStep(t, rows, b) && (FlipLiveStep(b, count, f) || CompactFlipStep(b, count, f));
    PostedAt(t, n, rows, b);
    FlippedAt(b, n, count, f);
    ElseView(t.db, b.db, n, t.marked.Keys);
    BuiltFrame(t.db, b.db, t.marked);
    ExhaustedClaims(b, n, rows);
  }

  lemma PostedAt(t: State, n: PackId, rows: map<Sha, nat>, b: State)
    requires BuildRowsStep(t, rows, b) && t.chain.value.newPack == Some(n) && t.db.rows[n] == map[]
    ensures b.db == t.db.(rows := t.db.rows[n := rows]) && b.chain == t.chain && b.marked == t.marked
  {
    hide BuiltSha, Ordinals, Whole;
    assert rows + map[] == rows;
  }

  lemma FlippedAt(b: State, n: PackId, count: nat, f: State)
    requires b.chain.Some? && b.chain.value.newPack == Some(n)
    requires FlipLiveStep(b, count, f) || CompactFlipStep(b, count, f)
    ensures f.db == b.db.(packs := b.db.packs[n := PackRow(Live, count, false)]) && f.chain == b.chain
    ensures f.marked == b.marked
    ensures Exhausted(b)
  {
    hide BuiltSha, Whole;
  }

  lemma ExhaustedClaims(b: State, n: PackId, rows: map<Sha, nat>)
    requires Exhausted(b) && b.chain.value.newPack == Some(n) && b.db.rows[n] == rows
    ensures forall x :: BuiltSha(b.db, b.marked, x) && x !in rows ==> x in Claims(b.chain.value)
  {
    hide BuiltSha;
  }

  /** A `wipe_build` cut after the row delete, then the build resumed from its stale cursor,
      published, perhaps drained, and the packs retired.  What survives was posted again or had
      a live copy outside the retired packs; what was not posted again had been claimed. */
  lemma HalfWipeResumed(g: Content, s: State, w: State, t: State, rows: map<Sha, nat>, count: nat, f: State,
                        d: State, ids: set<PackId>, v: State, x: Sha)
    requires Inv(g, s) && WipeRowsStep(s, false, w) && !LivePack(s.db, s.chain.value.newPack.value) && StopStep(w, t)
    requires Resumed(t, rows, count, f) && d.db == f.db && d.marked.Keys == f.marked.Keys && Retired(d, ids, v)
    ensures Alive(v.db, x) <==> x in rows || exists p :: LiveCopy(s.db, x, p) && p !in ids
    ensures BuiltSha(s.db, s.marked, x) && x !in rows ==> x in Claims(s.chain.value)
  {
    hide Inv, Tears, Keep, BuiltSha, Resumed, Turn, Whole, Retired;
    var n := s.chain.value.newPack.value;
    OwnApart(g, s);
    ResumedStore(t, rows, count, f);
    RetiredStore(d, ids, v);
    ElseView(s.db, t.db, n, s.marked.Keys);
    BuiltFrame(s.db, t.db, s.marked);
    ResumedCopies(s.db, n, rows, ids, d.db, x);
  }

  /** The same for a compaction, whose swap moves no epoch. */
  lemma HalfWipeCompacted(g: Content, s: State, w: State, t: State, rows: map<Sha, nat>, count: nat, f: State,
                          v: State, x: Sha)
    requires Inv(g, s) && WipeRowsStep(s, false, w) && !LivePack(s.db, s.chain.value.newPack.value) && StopStep(w, t)
    requires Resumed(t, rows, count, f) && CompactDeadMarkStep(f, v)
    ensures Alive(v.db, x) <==> x in rows || exists p :: LiveCopy(s.db, x, p) && p !in s.marked
    ensures BuiltSha(s.db, s.marked, x) && x !in rows ==> x in Claims(s.chain.value)
  {
    hide Inv, Tears, Keep, BuiltSha, Resumed, Turn, Whole;
    var n := s.chain.value.newPack.value;
    OwnApart(g, s);
    ResumedStore(t, rows, count, f);
    ElseView(s.db, t.db, n, s.marked.Keys);
    BuiltFrame(s.db, t.db, s.marked);
    ResumedCopies(s.db, n, rows, s.marked.Keys, f.db, x);
  }

  lemma OwnApart(g: Content, s: State)
    requires Inv(g, s) && s.chain.Some? && s.chain.value.newPack.Some?
    ensures s.chain.value.newPack.value !in s.marked
  {
    hide MarkOk, GenOk, ShapeOk;
    NotOfCohort(g, s);
  }

  // ---- cut pushes ----

  lemma SweptSafe(g: Content, s: State, x: Sha)
    requires Inv(g, s) && s.span.Idle? && !Torn(s) && Unmoved(s) && s.chain.value.phase.Sweep? && Whole(s.db, s.marked)
    ensures Alive(Turn(s.db, s.marked.Keys, Dead), x) <==> Safe(s.db, s.marked, x)
  {
    hide MarkOk, GenOk, SpanOk, TablesOk, PlanOk, TrustOk, QueueOk, BuildOk, CohortOk, RetireOk, NewPackOk;
    SweepBacked(g, s, s.marked.Keys);
    if Safe(s.db, s.marked, x) { SafeSurvives(s, s.marked.Keys, x); }
    if Alive(Turn(s.db, s.marked.Keys, Dead), x) {
      var p :| LiveCopy(Turn(s.db, s.marked.Keys, Dead), x, p);
      assert SafeCopy(s.db, s.marked, x, p);
    }
  }

  /** A push cut after its ref write and before the `refs_version` bump: the flag-off sweep
      goes on, and what the mark had not made safe is lost, referenced or not. */
  lemma HalfPushSwept(g: Content, s: State, n: RefName, r: Ref, l: State, t: State, u: State, v: State, x: Sha)
    requires Inv(g, s) && s.span.Idle? && !Torn(s) && Whole(s.db, s.marked)
    requires PlainLandStep(s, n, r, l) && StopStep(l, t) && SweepBumpStep(t, u) && SweepDeadMarkStep(u, v)
    ensures Torn(t) && v.refs == s.refs[n := r]
    ensures Alive(v.db, x) <==> Safe(s.db, s.marked, x)
  {
    hide Inv, Alive, Safe, Trusted, SetState, Whole;
    SweptSafe(g, s, x);
  }

  /** .. and with a pack promoted first: what the pack brought survives, what it links to
      need not. */
  lemma HalfPromotedSwept(g: Content, s: State, p: PackId, l: State, t: State, u: State, v: State, x: Sha)
    requires Inv(g, s) && s.span.Idle? && !Torn(s) && Whole(s.db, s.marked)
    requires PlainPromoteStep(s, p, l) && StopStep(l, t) && SweepBumpStep(t, u) && SweepDeadMarkStep(u, v)
    ensures Torn(t) && (Alive(v.db, x) <==> Safe(s.db, s.marked, x) || Copy(s.db, x, p))
  {
    hide Trusted, MarkOk, GenOk, SpanOk, TablesOk, PlanOk, TrustOk, QueueOk, BuildOk, RetireOk, NewPackOk, ModeOk,
      BuiltWithin;
    SweptSafe(g, s, x);
    Foreign(s, p);
    assert Whole(l.db, l.marked);
    var swept := Turn(s.db, s.marked.Keys, Dead);
    if Alive(swept, x) {
      var q :| LiveCopy(swept, x, q);
      assert LiveCopy(v.db, x, q);
    }
    if Copy(s.db, x, p) { assert LiveCopy(v.db, x, p); }
    if Alive(v.db, x) {
      var q :| LiveCopy(v.db, x, q);
      if q != p { assert LiveCopy(swept, x, q); }
    }
  }

  // ---- when a cut push is harmless ----

  /** The mark of a drained flag-off chain: what is safe is black or a blob outside the
      cohort, and that holds on of everything it reaches. */
  ghost predicate Kept(g: Content, s: State, x: Sha) {
    x in Black(s) || (g.kind(x).Blob? && Outer(s.db, s.marked, x))
  }

  lemma SafeKept(g: Content, s: State, x: Sha)
    requires Tricolour(g, s) && s.frontier == map[] && s.pending == map[] && Safe(s.db, s.marked, x)
    ensures Kept(g, s, x)
  {
    var p :| SafeCopy(s.db, s.marked, x, p);
    if p !in s.marked {
      assert OuterCopy(s.db, s.marked, x, p);
      if !g.kind(x).Blob? {
        assert MarkRoot(g, s, x) && LiveCopy(s.db, x, p);
        NothingPending(g, s, x);
      }
    }
  }

  lemma NothingPending(g: Content, s: State, x: Sha)
    requires s.pending == map[]
    ensures !PendingRoot(g, s.db, s.pending, x)
  {
    assert forall p :: !PendingCopy(s.db, s.pending, x, p);
  }

  lemma KeptSafe(g: Content, s: State, x: Sha)
    requires Tricolour(g, s) && Kept(g, s, x) && Alive(s.db, x)
    ensures Safe(s.db, s.marked, x)
  {
    if x !in Black(s) {
      var p :| OuterCopy(s.db, s.marked, x, p);
      assert SafeCopy(s.db, s.marked, x, p);
    }
  }

  lemma KeptLink(g: Content, s: State, y: Sha, z: Sha)
    requires BlobsAreLeaves(g) && Tricolour(g, s) && s.frontier == map[] && s.pending == map[]
    requires Kept(g, s, y) && Alive(s.db, y) && z in g.links(y) && Alive(s.db, z)
    ensures Kept(g, s, z)
  {
    NothingPending(g, s, z);
  }

  /** What a push in state l adds, seen from the tables s it found: objects of its pack, and
      roots. */
  ghost predicate Fine(g: Content, s: State, pack: set<Sha>, x: Sha) {
    x in pack || (Kept(g, s, x) && Alive(s.db, x))
  }

  ghost predicate Sealed(g: Content, s: State, l: State, pack: set<Sha>) {
    && (forall x :: Alive(l.db, x) <==> Alive(s.db, x) || x in pack)
    && (forall y, z :: y in pack && z in g.links(y) && Alive(l.db, z) ==> z in pack || Safe(s.db, s.marked, z))
  }

  lemma {:induction false} FinePath(g: Content, s: State, l: State, pack: set<Sha>, p: seq<Sha>)
    requires BlobsAreLeaves(g) && Tricolour(g, s) && s.frontier == map[] && s.pending == map[]
    requires Sealed(g, s, l, pack) && Path(g, LiveSet(l.db), p) && Fine(g, s, pack, p[0]) && Alive(l.db, p[|p| - 1])
    ensures Fine(g, s, pack, p[|p| - 1])
  {
    hide Tricolour, BlobsAreLeaves, Kept;
    if |p| > 1 {
      var q := p[..|p| - 1];
      var y, z := q[|q| - 1], p[|p| - 1];
      FinePath(g, s, l, pack, q);
      if z !in pack {
        if y in pack { SafeKept(g, s, z); } else { KeptLink(g, s, y, z); }
      }
    }
  }

  /** The tables a flag-off sweep stands on. */
  ghost predicate FlagOffSweep(g: Content, s: State) {
    && Inv(g, s) && s.span.Idle? && !Torn(s) && Whole(s.db, s.marked)
    && s.chain.Some? && s.chain.value.mode.FlagOff? && s.chain.value.phase.Sweep? && s.rv == s.chain.value.rv
  }

  lemma FlagOffDrained(g: Content, s: State)
    requires FlagOffSweep(g, s)
    ensures Tricolour(g, s) && s.frontier == map[] && s.pending == map[]
  {
    hide Tricolour, GenOk, PlanOk, TablesOk, TrustOk, ChainOk;
  }

  /** Roots of the tables s are fine. */
  lemma RootFine(g: Content, s: State, pack: set<Sha>, x: Sha)
    requires FlagOffSweep(g, s) && MarkRoot(g, s, x) && Alive(s.db, x)
    ensures Fine(g, s, pack, x)
  {
    hide Inv;
    FlagOffDrained(g, s);
    NothingPending(g, s, x);
  }

  /** A push cut after a ref write loses nothing the sweep could reach if and only if the new
      target and peeled target, where live, were marked or had a copy outside the cohort. */
  lemma HalfPushHarmless(g: Content, s: State, n: RefName, r: Ref, l: State, t: State, u: State, v: State)
    requires BlobsAreLeaves(g) && FlagOffSweep(g, s)
    requires PlainLandStep(s, n, r, l) && StopStep(l, t) && SweepBumpStep(t, u) && SweepDeadMarkStep(u, v)
    ensures (forall x :: Reachable(g, l, x) && Alive(l.db, x) ==> Alive(v.db, x)) <==>
      forall x :: x in Feeds(r) && Alive(s.db, x) ==> Safe(s.db, s.marked, x)
  {
    hide Inv, StopStep, SweepBumpStep, SweepDeadMarkStep, Safe, Reachable;
    forall x ensures Alive(v.db, x) <==> Safe(s.db, s.marked, x) { HalfPushSwept(g, s, n, r, l, t, u, v, x); }
    if forall x :: x in Feeds(r) && Alive(s.db, x) ==> Safe(s.db, s.marked, x) {
      forall x | Reachable(g, l, x) && Alive(l.db, x) ensures Safe(s.db, s.marked, x) { LandedSafe(g, s, n, r, l, x); }
    }
    forall x | x in Feeds(r) ensures Reachable(g, l, x) { FedReachable(g, l, n, r, x); }
  }

  lemma FedReachable(g: Content, l: State, n: RefName, r: Ref, x: Sha)
    requires n in l.refs && l.refs[n] == r && x in Feeds(r)
    ensures Reachable(g, l, x)
  {
    assert PathTo(g, LiveSet(l.db), [x], x) && MarkRoot(g, l, [x][0]);
  }

  lemma LandedSafe(g: Content, s: State, n: RefName, r: Ref, l: State, x: Sha)
    requires BlobsAreLeaves(g) && FlagOffSweep(g, s) && l == s.(refs := s.refs[n := r], span := PlainOpen)
    requires forall y :: y in Feeds(r) && Alive(s.db, y) ==> Safe(s.db, s.marked, y)
    requires Reachable(g, l, x) && Alive(l.db, x)
    ensures Safe(s.db, s.marked, x)
  {
    hide Inv, Kept, Safe, Tricolour, BlobsAreLeaves, Alive, MarkRoot;
    FlagOffDrained(g, s);
    var p :| PathTo(g, LiveSet(l.db), p, x) && MarkRoot(g, l, p[0]);
    assert Alive(s.db, p[0]);
    LandedRoot(g, s, n, r, l, p[0]);
    FinePath(g, s, l, {}, p);
    KeptSafe(g, s, x);
  }

  lemma LandedRoot(g: Content, s: State, n: RefName, r: Ref, l: State, x: Sha)
    requires BlobsAreLeaves(g) && FlagOffSweep(g, s) && l == s.(refs := s.refs[n := r], span := PlainOpen)
    requires forall y :: y in Feeds(r) && Alive(s.db, y) ==> Safe(s.db, s.marked, y)
    requires MarkRoot(g, l, x) && Alive(s.db, x)
    ensures Fine(g, s, {}, x)
  {
    hide Inv, Kept, Safe, Tricolour, BlobsAreLeaves, Alive, Outer;
    if x in Feeds(r) {
      FlagOffDrained(g, s);
      SafeKept(g, s, x);
    } else {
      assert MarkRoot(g, s, x);
      RootFine(g, s, {}, x);
    }
  }

  function Brought(s: State, p: PackId): set<Sha> {
    if p in s.db.rows then s.db.rows[p].Keys else {}
  }

  /** The same for a push cut behind its promotion: if and only if everything live its pack
      links to came with it, was marked, or had a copy outside the cohort. */
  lemma HalfPromotedHarmless(g: Content, s: State, p: PackId, l: State, t: State, u: State, v: State)
    requires BlobsAreLeaves(g) && FlagOffSweep(g, s)
    requires PlainPromoteStep(s, p, l) && StopStep(l, t) && SweepBumpStep(t, u) && SweepDeadMarkStep(u, v)
    ensures (forall x :: Reachable(g, l, x) && Alive(l.db, x) ==> Alive(v.db, x)) <==>
      forall y, z :: y in Brought(s, p) && z in g.links(y) && Alive(l.db, z) ==>
        z in Brought(s, p) || Safe(s.db, s.marked, z)
  {
    hide Inv, StopStep, SweepBumpStep, SweepDeadMarkStep, Safe, Reachable, PlainPromoteStep, Alive;
    forall x ensures Alive(v.db, x) <==> Safe(s.db, s.marked, x) || x in Brought(s, p) {
      HalfPromotedSwept(g, s, p, l, t, u, v, x);
    }
    PromotedAlive(g, s, p, l);
    if forall y, z :: y in Brought(s, p) && z in g.links(y) && Alive(l.db, z) ==>
         z in Brought(s, p) || Safe(s.db, s.marked, z)
    {
      forall x | Reachable(g, l, x) && Alive(l.db, x) ensures Alive(v.db, x) { PromotedSafe(g, s, p, l, x); }
    }
    forall y, z | y in Brought(s, p) && z in g.links(y)
      ensures Reachable(g, l, z) { BroughtReachable(g, s, p, l, y, z); }
  }

  /** The pack is new and outside the cohort. */
  lemma PromotedAlive(g: Content, s: State, p: PackId, l: State)
    requires Inv(g, s) && s.chain.Some? && PlainPromoteStep(s, p, l)
    ensures (forall x :: Alive(l.db, x) <==> Alive(s.db, x) || x in Brought(s, p)) && p !in l.marked
    ensures forall x, q :: LiveCopy(l.db, x, q) <==> LiveCopy(s.db, x, q) || (q == p && x in Brought(s, p))
  {
    hide MarkOk, GenOk, PlanOk, SpanOk, TrustOk, TablesOk;
    Foreign(s, p);
    assert forall x, q :: LiveCopy(l.db, x, q) <==> LiveCopy(s.db, x, q) || (q == p && x in Brought(s, p));
    forall x | x in Brought(s, p) ensures Alive(l.db, x) { assert LiveCopy(l.db, x, p); }
    forall x | Alive(s.db, x) ensures Alive(l.db, x) {
      var q :| LiveCopy(s.db, x, q);
      assert LiveCopy(l.db, x, q);
    }
    forall x | Alive(l.db, x) ensures Alive(s.db, x) || x in Brought(s, p) {
      var q :| LiveCopy(l.db, x, q);
    }
  }

  lemma BroughtReachable(g: Content, s: State, p: PackId, l: State, y: Sha, z: Sha)
    requires BlobsAreLeaves(g) && Inv(g, s) && s.chain.Some? && PlainPromoteStep(s, p, l)
    requires y in Brought(s, p) && z in g.links(y)
    ensures Reachable(g, l, z)
  {
    hide Inv, PlainPromoteStep, Reachable, RefRoot;
    PromotedAlive(g, s, p, l);
    assert LiveCopy(l.db, y, p);
    assert OuterCopy(l.db, l.marked, y, p);
    LinkReachable(g, l, y, z);
  }

  lemma LinkReachable(g: Content, l: State, y: Sha, z: Sha)
    requires MarkRoot(g, l, y) && Alive(l.db, y) && z in g.links(y)
    ensures Reachable(g, l, z)
  {
    hide MarkRoot, Alive;
    assert PathTo(g, LiveSet(l.db), [y, z], z) && [y, z][0] == y;
  }

  lemma PromotedSafe(g: Content, s: State, p: PackId, l: State, x: Sha)
    requires BlobsAreLeaves(g) && FlagOffSweep(g, s) && PlainPromoteStep(s, p, l)
    requires forall y, z :: y in Brought(s, p) && z in g.links(y) && Alive(l.db, z) ==>
      z in Brought(s, p) || Safe(s.db, s.marked, z)
    requires Reachable(g, l, x) && Alive(l.db, x)
    ensures Safe(s.db, s.marked, x) || x in Brought(s, p)
  {
    hide Inv, Kept, Safe, Tricolour, BlobsAreLeaves, Alive;
    FlagOffDrained(g, s);
    PromotedAlive(g, s, p, l);
    var path :| PathTo(g, LiveSet(l.db), path, x) && MarkRoot(g, l, path[0]);
    if path[0] !in Brought(s, p) {
      assert Outer(l.db, l.marked, path[0]) ==> Outer(s.db, s.marked, path[0]) by {
        assert forall q :: OuterCopy(l.db, l.marked, path[0], q) ==> OuterCopy(s.db, s.marked, path[0], q);
      }
      RootFine(g, s, Brought(s, p), path[0]);
    }
    FinePath(g, s, l, Brought(s, p), path);
    if x !in Brought(s, p) { KeptSafe(g, s, x); }
  }
}
