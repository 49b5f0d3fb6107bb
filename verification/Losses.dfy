/** Exactly what a retirement loses, whatever was cut before it.

    A retirement of packs loses no reachable object if and only if what was copied out of
    them is live outside them.  Where a wipe of the build pack was cut, that pack holds what
    was posted since, and nothing else. */
module Losses {
  import opened Repository
  import opened Steps
  import opened Shape
  import opened Marking
  import opened Generations
  import opened Invariant
  import opened Frames
  import opened Safety
  import opened Runs

  /** The packs a retiring write kills. */
  function Doomed(s: State, a: Action): set<PackId> {
    if a.DeadMark? && (s.span.Intended? || s.span.Bumped?) then s.span.intent.ids else s.marked.Keys
  }

  lemma RetiringStep(g: Content, s: State, a: Action, t: State)
    requires Step(g, s, a, t) && Retires(a)
    ensures if a.DeadMark? then DeadMarkStep(s, t)
            else if a.SweepDeadMark? then SweepDeadMarkStep(s, t) else CompactDeadMarkStep(s, t)
  {
    hide EnvFamily, PlainFamily, PushFamily, WalkFamily, PageFamily, BuildFamily, WipeFamily, DeadMarkStep,
      SweepDeadMarkStep, CompactDeadMarkStep;
  }

  lemma DoomedTurned(g: Content, s: State, a: Action, t: State)
    requires Step(g, s, a, t) && Retires(a)
    ensures t.db == Turn(s.db, Doomed(s, a), Dead)
  {
    hide Step, Turn;
    RetiringStep(g, s, a, t);
  }

  /** What is live after a retirement was live outside the retired packs. */
  lemma RetiredAlive(g: Content, s: State, a: Action, t: State, x: Sha)
    requires Step(g, s, a, t) && Retires(a)
    ensures Alive(t.db, x) <==> Beyond(s.db, Doomed(s, a), x)
  {
    hide Step, Beyond, Alive, Turn, Doomed;
    DoomedTurned(g, s, a, t);
    Survivors(s.db, Doomed(s, a), x);
  }

  /** Copied out of a retired pack, the object is live outside them; and a chain that missed a
      push had made it safe all the same. */
  ghost predicate Provided(s: State, a: Action, x: Sha) {
    && (a.SweepDeadMark? && Missed(s) ==> Safe(s.db, s.marked, x))
    && forall p :: p in Doomed(s, a) && BuiltCopy(s.db, s.marked, x, p) ==> Beyond(s.db, Doomed(s, a), x)
  }

  lemma CopiedKept(s: State, ids: set<PackId>, x: Sha)
    requires CopiedOut(s, ids) && Alive(s.db, x)
    requires forall p :: p in ids && BuiltCopy(s.db, s.marked, x, p) ==> Beyond(s.db, ids, x)
    ensures Beyond(s.db, ids, x)
  {
    var p :| LiveCopy(s.db, x, p);
  }

  lemma SwapKept(g: Content, s: State, t: State, x: Sha)
    requires BlobsAreLeaves(g) && Inv(g, s) && DeadMarkStep(s, t) && Reachable(g, s, x) && Alive(s.db, x)
    requires forall p :: p in s.span.intent.ids && BuiltCopy(s.db, s.marked, x, p) ==>
      Beyond(s.db, s.span.intent.ids, x)
    ensures Beyond(s.db, s.span.intent.ids, x)
  {
    hide Inv, Beyond, Reachable, BuiltCopy, Backed, Turn, Safe;
    AtDeadMark(g, s, t);
    if s.span.intent.fallback {
      FallbackCopied(g, s, t);
      CopiedKept(s, s.span.intent.ids, x);
    } else {
      DrainedSafe(g, s, x);
      SafeSurvives(s, s.span.intent.ids, x);
      Survivors(s.db, s.span.intent.ids, x);
    }
  }

  lemma SweepKept(g: Content, s: State, t: State, x: Sha)
    requires BlobsAreLeaves(g) && Inv(g, s) && SweepDeadMarkStep(s, t) && Reachable(g, s, x) && Alive(s.db, x)
    requires Missed(s) ==> Safe(s.db, s.marked, x)
    requires forall p :: p in s.marked.Keys && BuiltCopy(s.db, s.marked, x, p) ==> Beyond(s.db, s.marked.Keys, x)
    ensures Beyond(s.db, s.marked.Keys, x)
  {
    hide Inv, Beyond, Reachable, BuiltCopy, Backed, Turn, Safe;
    AtSweepDeadMark(g, s, t);
    if Whole(s.db, s.marked) {
      if !Missed(s) { DrainedSafe(g, s, x); }
      SafeSurvives(s, s.marked.Keys, x);
      Survivors(s.db, s.marked.Keys, x);
    } else {
      Unswept(s, x);
    }
  }

  lemma BeyondSafe(s: State, x: Sha)
    requires Beyond(s.db, s.marked.Keys, x)
    ensures Safe(s.db, s.marked, x)
  {
    var n :| n !in s.marked.Keys && LiveCopy(s.db, x, n);
    assert SafeCopy(s.db, s.marked, x, n);
  }

  /** In every reachable state, a retiring write keeps a reachable object if and only if it is
      provided for. */
  lemma RetirementExact(g: Content, s: State, a: Action, t: State, x: Sha)
    requires BlobsAreLeaves(g) && Inv(g, s) && Step(g, s, a, t) && Retires(a) && Reachable(g, s, x) && Alive(s.db, x)
    ensures Alive(t.db, x) <==> Provided(s, a, x)
  {
    hide EnvFamily, PlainFamily, PushFamily, WalkFamily, PageFamily, BuildFamily, WipeFamily, Inv, Reachable, Beyond,
      Alive, BuiltCopy, Safe, Turn;
    RetiredAlive(g, s, a, t, x);
    if a.SweepDeadMark? {
      if Provided(s, a, x) { SweepKept(g, s, t, x); }
      if Beyond(s.db, s.marked.Keys, x) { BeyondSafe(s, x); }
    } else if a.DeadMark? {
      if Provided(s, a, x) { SwapKept(g, s, t, x); }
    } else if Provided(s, a, x) {
      CompactCopied(g, s, t);
      CopiedKept(s, s.marked.Keys, x);
    }
  }

  /** No write of any run takes the last live copy of a reachable object, but a retirement of
      one that is not provided for, and the giving back of a promotion. */
  lemma LostExactly(g: Content, states: seq<State>, acts: seq<Action>, i: nat, x: Sha)
    requires RunFrom(g, states, acts) && i < |acts| && !GivesBack(acts[i])
    requires Reachable(g, states[i], x) && Alive(states[i].db, x)
    ensures Alive(states[i + 1].db, x) <==> (Retires(acts[i]) ==> Provided(states[i], acts[i], x))
  {
    hide Inv, Step, Reachable, Alive, Provided;
    RunInvariant(g, states, acts, i);
    assert StepAt(g, states, acts, i);
    if Retires(acts[i]) {
      RetirementExact(g, states[i], acts[i], states[i + 1], x);
    } else {
      StepSafe(g, states[i], acts[i], states[i + 1]);
    }
  }

  // ---- what the build pack holds ----

  /** A build pack is neither a cohort pack nor a push's. */
  ghost predicate Home(s: State, n: PackId) {
    && s.chain.Some? && s.chain.value.newPack == Some(n) && n in s.db.rows && n !in s.marked
    && (n in s.db.packs ==> !s.db.packs[n].pushed)
    && (s.span.DeadMarked? ==> n !in s.span.intent.ids)
  }

  lemma HomeOf(g: Content, s: State, n: PackId)
    requires Inv(g, s) && s.chain.Some? && s.chain.value.newPack == Some(n)
    ensures Home(s, n)
  {
    hide MarkOk, GenOk, PlanOk, TrustOk, TablesOk, QueueOk, CohortOk, BuildOk, ModeOk, BuiltWithin;
  }

  /** The rows of the build pack after a write. */
  function Holds(held: set<Sha>, a: Action): set<Sha> {
    match a
    case WipeRows(_) => {}
    case BuildRows(rows) => held + rows.Keys
    case _ => held
  }

  ghost predicate HoldsAfter(s: State, a: Action, t: State, n: PackId) {
    n in s.db.rows && n in t.db.rows && t.db.rows[n].Keys == Holds(s.db.rows[n].Keys, a)
  }

  lemma UntouchedHolds(g: Content, s: State, a: Action, t: State, n: PackId)
    requires Step(g, s, a, t) && !TouchesStore(a) && Home(s, n)
    ensures HoldsAfter(s, a, t, n)
  {
    hide Step;
    StoreFrame(g, s, a, t);
  }

  lemma EnvHolds(g: Content, s: State, a: Action, t: State, n: PackId)
    requires EnvFamily(g, s, a, t) && TouchesStore(a) && Home(s, n)
    ensures HoldsAfter(s, a, t, n)
  {
    hide Ordinals, StopStep, ScratchStep, BumpVersionStep, PinStep, UnpinStep;
  }

  lemma PlainHolds(g: Content, s: State, a: Action, t: State, n: PackId)
    requires PlainFamily(g, s, a, t) && TouchesStore(a) && Home(s, n)
    ensures HoldsAfter(s, a, t, n)
  {
  }

  lemma PushHolds(g: Content, s: State, a: Action, t: State, n: PackId)
    requires PushFamily(g, s, a, t) && TouchesStore(a) && Home(s, n)
    ensures HoldsAfter(s, a, t, n)
  {
    hide Promotable, PushPendingStep, PushForgetStep, PushFeedStep, PushLandStep, PushDeleteStep;
  }

  lemma BuildHolds(g: Content, s: State, a: Action, t: State, n: PackId)
    requires BuildFamily(g, s, a, t) && TouchesStore(a) && Home(s, n)
    ensures HoldsAfter(s, a, t, n)
  {
    hide BuiltSha, Ordinals, Whole, Exhausted, Placed;
  }

  lemma RetireHolds(g: Content, s: State, a: Action, t: State, n: PackId)
    requires RetireFamily(g, s, a, t) && Home(s, n)
    ensures HoldsAfter(s, a, t, n)
  {
    hide Whole, Lossy, FallbackPack;
  }

  lemma WipeHolds(g: Content, s: State, a: Action, t: State, n: PackId)
    requires WipeFamily(g, s, a, t) && Home(s, n)
    ensures HoldsAfter(s, a, t, n)
  {
    hide Whole, Keep;
  }

  lemma FinishHolds(g: Content, s: State, a: Action, t: State, n: PackId)
    requires FinishFamily(g, s, a, t) && Home(s, n)
    ensures HoldsAfter(s, a, t, n)
  {
    hide DedupMarks, Exhausted;
  }

  /** Only the build posts rows into its pack, and only a wipe takes them. */
  lemma StepHolds(g: Content, s: State, a: Action, t: State, n: PackId)
    requires Step(g, s, a, t) && Home(s, n)
    ensures HoldsAfter(s, a, t, n)
  {
    hide EnvFamily, PlainFamily, PushFamily, WalkFamily, PageFamily, BuildFamily, RetireFamily, WipeFamily,
      FinishFamily, HoldsAfter, Home;
    if !TouchesStore(a) { UntouchedHolds(g, s, a, t, n); }
    else if EnvAction(a) { EnvHolds(g, s, a, t, n); }
    else if PlainAction(a) { PlainHolds(g, s, a, t, n); }
    else if PushAction(a) { PushHolds(g, s, a, t, n); }
    else if BuildAction(a) { BuildHolds(g, s, a, t, n); }
    else if RetireAction(a) { RetireHolds(g, s, a, t, n); }
    else if WipeAction(a) { WipeHolds(g, s, a, t, n); }
    else { FinishHolds(g, s, a, t, n); }
  }

  /** What was posted since the rows were last deleted. */
  function Posted(acts: seq<Action>, i: nat, j: nat): set<Sha>
    requires i <= j <= |acts|
  {
    if i == j then {} else Holds(Posted(acts, i, j - 1), acts[j - 1])
  }

  /** The chain builds into pack n all along. */
  ghost predicate Builds(states: seq<State>, n: PackId, i: nat, j: nat) {
    forall k {:trigger states[k]} :: i <= k <= j && k < |states| ==>
      states[k].chain.Some? && states[k].chain.value.newPack == Some(n)
  }

  /** From a state in which the build pack is empty it holds what was posted since. */
  lemma {:induction false} BuildPackHolds(g: Content, states: seq<State>, acts: seq<Action>, n: PackId, i: nat, j: nat)
    requires RunFrom(g, states, acts) && i <= j < |states| && Builds(states, n, i, j)
    requires n in states[i].db.rows && states[i].db.rows[n] == map[]
    ensures n in states[j].db.rows && states[j].db.rows[n].Keys == Posted(acts, i, j)
    decreases j
  {
    hide Inv, Step, Start, Home;
    if i < j {
      BuildPackHolds(g, states, acts, n, i, j - 1);
      RunInvariant(g, states, acts, j - 1);
      HomeOf(g, states[j - 1], n);
      assert StepAt(g, states, acts, j - 1);
      StepHolds(g, states[j - 1], acts[j - 1], states[j], n);
    }
  }

  /** A live copy in neither the retired packs nor the build pack. */
  ghost predicate Apart(db: Store, ids: set<PackId>, n: PackId, x: Sha) {
    exists p :: LiveCopy(db, x, p) && p !in ids && p != n
  }

  lemma ApartOrBuilt(db: Store, ids: set<PackId>, n: PackId, x: Sha)
    requires n !in ids
    ensures Beyond(db, ids, x) <==> Apart(db, ids, n, x) || LiveCopy(db, x, n)
  {
    if Beyond(db, ids, x) {
      var p :| p !in ids && LiveCopy(db, x, p);
    }
    if Apart(db, ids, n, x) {
      var p :| LiveCopy(db, x, p) && p !in ids && p != n;
    }
  }

  lemma SparesBuild(g: Content, s: State, a: Action, t: State, n: PackId)
    requires Inv(g, s) && Step(g, s, a, t) && Retires(a) && Home(s, n)
    ensures n !in Doomed(s, a)
  {
    hide EnvFamily, PlainFamily, PushFamily, WalkFamily, PageFamily, BuildFamily, WipeFamily, Inv, Turn, Backed;
    if a.DeadMark? { AtDeadMark(g, s, t); }
  }

  /** After a cut wipe, whatever pushes, drains, batches of rows and fences lie between, a
      retirement (swap, fallback, flag-off sweep or compaction) leaves alive exactly what was
      posted again into a build pack that is live, and what is live apart from it and them. */
  lemma TornRetirement(g: Content, states: seq<State>, acts: seq<Action>, n: PackId, i: nat, j: nat, x: Sha)
    requires RunFrom(g, states, acts) && i <= j < |acts| && Builds(states, n, i, j) && Retires(acts[j])
    requires n in states[i].db.rows && states[i].db.rows[n] == map[]
    ensures Alive(states[j + 1].db, x) <==>
      || (LivePack(states[j].db, n) && x in Posted(acts, i, j))
      || Apart(states[j].db, Doomed(states[j], acts[j]), n, x)
  {
    hide Inv, Step, Start, Home, Alive, Beyond, Apart, Doomed;
    RunInvariant(g, states, acts, j);
    HomeOf(g, states[j], n);
    assert StepAt(g, states, acts, j);
    BuildPackHolds(g, states, acts, n, i, j);
    SparesBuild(g, states[j], acts[j], states[j + 1], n);
    RetiredAlive(g, states[j], acts[j], states[j + 1], x);
    ApartOrBuilt(states[j].db, Doomed(states[j], acts[j]), n, x);
  }

  /** .. so a retirement that stakes everything on the copies (fallback, full swap, compaction)
      is lossless if and only if everything copied was posted again or is live apart. */
  lemma TornLossless(g: Content, states: seq<State>, acts: seq<Action>, n: PackId, i: nat, j: nat)
    requires RunFrom(g, states, acts) && i <= j < |acts| && Builds(states, n, i, j) && Retires(acts[j])
    requires n in states[i].db.rows && states[i].db.rows[n] == map[]
    requires Sparing(states[j], acts[j])
    ensures var s, ids := states[j], Doomed(states[j], acts[j]);
      (forall x :: Alive(states[j + 1].db, x) <==> Alive(s.db, x)) <==>
      forall x, p :: p in ids && BuiltCopy(s.db, s.marked, x, p) ==>
        (LivePack(s.db, n) && x in Posted(acts, i, j)) || Apart(s.db, ids, n, x)
  {
    hide Inv, Step, Start, Home, Alive, Beyond, Apart, Doomed, BuiltCopy;
    var s, ids := states[j], Doomed(states[j], acts[j]);
    RunInvariant(g, states, acts, j);
    assert StepAt(g, states, acts, j);
    SparingExact(g, s, acts[j], states[j + 1]);
    forall x
      ensures Beyond(s.db, ids, x) <==> (LivePack(s.db, n) && x in Posted(acts, i, j)) || Apart(s.db, ids, n, x)
    {
      TornRetirement(g, states, acts, n, i, j, x);
      RetiredAlive(g, s, acts[j], states[j + 1], x);
    }
  }

  lemma SparingExact(g: Content, s: State, a: Action, t: State)
    requires Inv(g, s) && Step(g, s, a, t) && Retires(a) && Sparing(s, a)
    ensures (forall x :: Alive(t.db, x) <==> Alive(s.db, x)) <==> Backed(s, Doomed(s, a))
  {
    hide EnvFamily, PlainFamily, PushFamily, WalkFamily, PageFamily, BuildFamily, WipeFamily, Inv, CompactDeadMarkStep,
      Alive, Backed, Turn;
    if a.CompactDeadMark? {
      CompactExact(g, s, t);
    } else {
      IntendedIsFull(s, t);
      if s.span.intent.fallback { FallbackExact(g, s, t); } else { FullSwapExact(g, s, t); }
    }
  }
}
