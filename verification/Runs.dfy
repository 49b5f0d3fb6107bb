/** The collector's promises over whole runs. */
module Runs {
  import opened Repository
  import opened Steps
  import opened Shape
  import opened Shaping
  import opened Marking
  import opened Generations
  import opened Invariant
  import opened Safety
  import opened Frames

  /** Any store at rest, with no chain and nothing in flight. */
  ghost predicate Start(s: State) {
    TablesOk(s) && s.chain.None? && s.span.Idle? && s.plan.None?
  }

  ghost predicate RunFrom(g: Content, states: seq<State>, acts: seq<Action>) {
    BlobsAreLeaves(g) && Run(g, states, acts) && Start(states[0])
  }

  lemma StartInvariant(g: Content, s: State)
    requires Start(s)
    ensures Inv(g, s)
  {
  }

  /** In every state of every run, whatever spans were cut in it. */
  lemma {:induction false} RunInvariant(g: Content, states: seq<State>, acts: seq<Action>, i: nat)
    requires RunFrom(g, states, acts) && i < |states|
    ensures Inv(g, states[i])
  {
    hide Inv, Step, Start;
    if i == 0 {
      StartInvariant(g, states[0]);
    } else {
      RunInvariant(g, states, acts, i - 1);
      assert StepAt(g, states, acts, i - 1);
      StepKeeps(g, states[i - 1], acts[i - 1], states[i]);
    }
  }

  /** After every single write of every run under a barrier chain. */
  lemma BarrierHolds(g: Content, states: seq<State>, acts: seq<Action>, i: nat)
    requires RunFrom(g, states, acts) && i < |states|
    requires BarrierOn(states[i]) && Whole(states[i].db, states[i].marked)
    ensures var s := states[i];
      forall x :: Reachable(g, s, x) && Alive(s.db, x) && !Safe(s.db, s.marked, x) ==> Protected(g, s, x)
  {
    hide Step, Safe, Protected, Reachable;
    RunInvariant(g, states, acts, i);
    BarrierInvariant(g, states[i]);
  }

  // ---- nothing reachable is lost ----

  /** A store with more live copies reaches more. */
  lemma MoreReachable(g: Content, u: State, s: State, x: Sha)
    requires Reachable(g, u, x) && u == s.(db := u.db) && CopiesStay(u.db, s.db)
    ensures Reachable(g, s, x)
  {
    hide RefRoot;
    var p :| PathTo(g, LiveSet(u.db), p, x) && MarkRoot(g, u, p[0]);
    assert LiveSet(u.db) <= LiveSet(s.db) by {
      forall y | Alive(u.db, y) ensures Alive(s.db, y) {}
    }
    assert Outer(u.db, u.marked, p[0]) ==> Outer(s.db, s.marked, p[0]) by {
      assert forall q :: OuterCopy(u.db, u.marked, p[0], q) ==> OuterCopy(s.db, s.marked, p[0], q);
    }
    assert PathTo(g, LiveSet(s.db), p, x) && MarkRoot(g, s, p[0]);
  }

  lemma UndoneReachable(g: Content, s: State, x: Sha)
    requires Reachable(g, Undone(s), x)
    ensures Reachable(g, s, x)
  {
    hide Reachable;
    assert CopiesStay(Undone(s).db, s.db);
    MoreReachable(g, Undone(s), s, x);
  }

  /** How a step treats the promotion under way. */
  lemma SpanUndone(g: Content, s: State, a: Action, t: State)
    requires Step(g, s, a, t)
    ensures
      if GivesBack(a) then t.db == Undone(s).db && Undone(t) == t
      else if Promotes(a) then Undone(t).db == s.db && Undone(s) == s
      else (t.db == s.db && t.span == s.span) || Undone(t) == t
  {
    hide Step, SetState;
    if GivesBack(a) {
      GivenBack(g, s, a, t);
    } else if Promotes(a) {
      TakenPack(g, s, a, t);
    } else if StartsRisk(a) {
      BumpUndone(g, s, a, t);
    } else {
      StepFrame(g, s, a, t);
    }
  }

  lemma BumpUndone(g: Content, s: State, a: Action, t: State)
    requires Step(g, s, a, t) && (a.BumpEpoch? || a.SweepBump?)
    ensures Undone(t) == t
  {
    hide Turn, Whole;
  }

  lemma GivenBack(g: Content, s: State, a: Action, t: State)
    requires Step(g, s, a, t) && GivesBack(a)
    ensures t.db == Undone(s).db && Undone(t) == t
  {
    hide Promotable;
  }

  /** What a promotion is: a pack ingested by a push goes live and may be given back. */
  lemma TakenPack(g: Content, s: State, a: Action, t: State)
    requires Step(g, s, a, t) && Promotes(a)
    ensures Undone(t).db == s.db && Undone(s) == s && !LivePack(s.db, a.pack) && t.db == Turn(s.db, {a.pack}, Live)
    ensures !RiskySpan(s.span) && (t.span == PlainPromoted(a.pack) || t.span == Promoted(a.pack))
  {
    hide EnvFamily, WalkFamily, PageFamily, BuildFamily, RetireFamily, WipeFamily, FinishFamily;
    PromoteUndone(s, a.pack, t);
  }

  /** No step takes the last live copy of an object that is reachable once promotions under
      way are given back, unless a torn chain retires packs. */
  lemma SettledSafe(g: Content, s: State, a: Action, t: State)
    requires BlobsAreLeaves(g) && Inv(g, s) && Step(g, s, a, t) && (Retires(a) ==> !Torn(s))
    ensures forall x :: Reachable(g, Undone(s), x) && Alive(Undone(s).db, x) ==> Alive(Undone(t).db, x)
  {
    hide Inv, Step, Reachable, Alive;
    SpanUndone(g, s, a, t);
    if !GivesBack(a) && !Promotes(a) && Undone(t) == t {
      UndoneWithin(s);
      StepSafe(g, s, a, t);
      forall x | Reachable(g, Undone(s), x) && Alive(Undone(s).db, x)
        ensures Alive(t.db, x) { UndoneReachable(g, s, x); }
    }
  }

  /** No write of any run takes the last live copy of a reachable object, unless it retires
      the packs of a torn chain. */
  lemma NothingReachableLost(g: Content, states: seq<State>, acts: seq<Action>, i: nat)
    requires RunFrom(g, states, acts) && i < |acts| && (Retires(acts[i]) ==> !Torn(states[i]))
    ensures var s, t := Undone(states[i]), Undone(states[i + 1]);
      forall x :: Reachable(g, s, x) && Alive(s.db, x) ==> Alive(t.db, x)
    ensures var s, t := states[i], states[i + 1];
      !GivesBack(acts[i]) ==> forall x :: Reachable(g, s, x) && Alive(s.db, x) ==> Alive(t.db, x)
  {
    hide Inv, Step, Reachable, Alive;
    RunInvariant(g, states, acts, i);
    assert StepAt(g, states, acts, i);
    SettledSafe(g, states[i], acts[i], states[i + 1]);
    if !GivesBack(acts[i]) { StepSafe(g, states[i], acts[i], states[i + 1]); }
  }

  // ---- the epoch ----

  /** Packs the span under way may still take back or kill. */
  function AtRisk(s: State): set<PackId> {
    match s.span
    case PlainPromoted(p) => {p}
    case Promoted(p) => {p}
    case Bumped(it) => it.ids
    case SweepBumped => s.marked.Keys
    case _ => {}
  }

  ghost predicate Stable(s: State, x: Sha) {
    exists p :: LiveCopy(s.db, x, p) && p !in AtRisk(s)
  }

  lemma AllStable(s: State)
    requires AtRisk(s) == {}
    ensures forall x :: Stable(s, x) <==> Alive(s.db, x)
  {
  }

  lemma RiskEnds(s: State, a: Action, t: State)
    requires Frame(s, a, t) && t.epoch == s.epoch && !Promotes(a)
    ensures AtRisk(t) <= AtRisk(s)
  {
  }

  lemma SparingNoRisk(g: Content, s: State, a: Action, t: State)
    requires Step(g, s, a, t) && Sparing(s, a)
    ensures AtRisk(s) == {} && AtRisk(t) == {}
  {
    hide Step;
    SparingSpans(g, s, a, t);
  }

  lemma SparingSpans(g: Content, s: State, a: Action, t: State)
    requires Step(g, s, a, t) && Sparing(s, a)
    ensures !RiskySpan(s.span) && !RiskySpan(t.span)
  {
    hide Turn, Whole, Keep, FinishFamily, WipeFamily;
    if a.WipeRows? {
      WipeSpan(g, s, a, t);
    } else if a.CompactDeadMark? {
      SwapSpan(g, s, a, t);
    }
  }

  lemma WipeSpan(g: Content, s: State, a: Action, t: State)
    requires WipeFamily(g, s, a, t) && a.WipeRows?
    ensures s.span.Idle? && t.span.Wiping?
  {
  }

  lemma SwapSpan(g: Content, s: State, a: Action, t: State)
    requires FinishFamily(g, s, a, t) && a.CompactDeadMark?
    ensures s.span.SwapFlipped? && t.span.SwapDead?
  {
  }

  lemma RiskTaken(s: State, t: State)
    requires AtRisk(t) == {} && forall x, p :: LiveCopy(s.db, x, p) && p !in AtRisk(s) ==> LiveCopy(t.db, x, p)
    ensures forall x :: Stable(s, x) ==> Stable(t, x)
  {
  }

  lemma SweptStable(s: State, t: State)
    requires SweepDeadMarkStep(s, t)
    ensures forall x :: Stable(s, x) ==> Stable(t, x)
  {
    RiskTaken(s, t);
  }

  lemma RetiredStable(s: State, t: State)
    requires DeadMarkStep(s, t) && s.span.Bumped?
    ensures forall x :: Stable(s, x) ==> Stable(t, x)
  {
    RiskTaken(s, t);
  }

  lemma GivenBackStable(g: Content, s: State, a: Action, t: State)
    requires Step(g, s, a, t) && GivesBack(a)
    ensures forall x :: Stable(s, x) ==> Stable(t, x)
  {
    hide Promotable;
    assert forall x, p :: LiveCopy(s.db, x, p) && p !in AtRisk(s) ==> LiveCopy(t.db, x, p);
    RiskTaken(s, t);
  }

  lemma TakenStable(g: Content, s: State, a: Action, t: State)
    requires Step(g, s, a, t) && Destructive(a) && !Sparing(s, a)
    ensures forall x :: Stable(s, x) ==> Stable(t, x)
  {
    hide Stable, SetState, Alive;
    if GivesBack(a) {
      GivenBackStable(g, s, a, t);
    } else if a.SweepDeadMark? {
      SweptStable(s, t);
    } else {
      RetiredStable(s, t);
    }
  }

  lemma KeptStable(s: State, a: Action, t: State)
    requires Frame(s, a, t) && CopiesStay(s.db, t.db) && t.epoch == s.epoch && !Promotes(a)
    ensures forall x :: Stable(s, x) ==> Stable(t, x)
  {
    RiskEnds(s, a, t);
  }

  lemma OneAtRisk(s: State, p: PackId, t: State)
    requires !LivePack(s.db, p) && t.db == Turn(s.db, {p}, Live) && AtRisk(t) <= {p}
    ensures forall x :: Stable(s, x) ==> Stable(t, x)
  {
    hide AtRisk;
    TurnLive(s.db, p);
    LiveKeptAlive(s.db, t.db);
  }

  lemma PromotedStable(g: Content, s: State, a: Action, t: State)
    requires Step(g, s, a, t) && Promotes(a)
    ensures forall x :: Stable(s, x) ==> Stable(t, x)
  {
    hide Step, Stable, SetState;
    TakenPack(g, s, a, t);
    OneAtRisk(s, a.pack, t);
  }

  lemma SparedStable(s: State, t: State)
    requires AtRisk(s) == {} && AtRisk(t) == {} && forall x :: Alive(t.db, x) <==> Alive(s.db, x)
    ensures forall x :: Stable(s, x) ==> Stable(t, x)
  {
    AllStable(s);
    AllStable(t);
  }

  /** A retirement that moves no epoch, because it takes every object to have a copy, is not
      one of a chain whose wipe was cut. */
  predicate Trustworthy(s: State, a: Action) {
    Retires(a) && Sparing(s, a) ==> !Hollow(s)
  }

  lemma EpochStep(g: Content, s: State, a: Action, t: State)
    requires Inv(g, s) && Step(g, s, a, t) && t.epoch == s.epoch && Trustworthy(s, a)
    ensures forall x :: Stable(s, x) ==> Stable(t, x)
  {
    hide Inv, Step, Stable, Alive;
    if Sparing(s, a) {
      SparingLossless(g, s, a, t);
      SparingNoRisk(g, s, a, t);
      SparedStable(s, t);
    } else if Destructive(a) {
      TakenStable(g, s, a, t);
    } else if Promotes(a) {
      PromotedStable(g, s, a, t);
    } else {
      SpanOfInv(g, s);
      CopiesKept(g, s, a, t);
      StepFrame(g, s, a, t);
      KeptStable(s, a, t);
    }
  }

  /** Between i and j no torn chain retires packs. */
  ghost predicate Unharmed(states: seq<State>, acts: seq<Action>, i: nat, j: nat) {
    && |states| == |acts| + 1
    && forall k {:trigger acts[k]} :: i <= k < j && k < |acts| && Retires(acts[k]) ==> !Torn(states[k])
  }

  ghost predicate Steady(states: seq<State>, acts: seq<Action>, i: nat, j: nat) {
    && |states| == |acts| + 1
    && forall k {:trigger acts[k]} :: i <= k < j && k < |acts| ==> Trustworthy(states[k], acts[k])
  }

  lemma {:induction false} EpochOrder(g: Content, states: seq<State>, acts: seq<Action>, i: nat, j: nat)
    requires Run(g, states, acts) && i <= j < |states|
    ensures states[i].epoch <= states[j].epoch
    decreases j
  {
    hide Run;
    if i < j {
      EpochOrder(g, states, acts, i, j - 1);
      EpochNext(g, states, acts, j - 1);
    }
  }

  lemma EpochNext(g: Content, states: seq<State>, acts: seq<Action>, i: nat)
    requires Run(g, states, acts) && i + 1 < |states|
    ensures states[i].epoch <= states[i + 1].epoch
  {
    hide Step;
    assert StepAt(g, states, acts, i);
    StepFrame(g, states[i], acts[i], states[i + 1]);
  }

  lemma RunEpochStep(g: Content, states: seq<State>, acts: seq<Action>, i: nat)
    requires RunFrom(g, states, acts) && i < |acts| && states[i].epoch == states[i + 1].epoch
    requires Trustworthy(states[i], acts[i])
    ensures forall x :: Stable(states[i], x) ==> Stable(states[i + 1], x)
  {
    hide Inv, Step, Stable;
    RunInvariant(g, states, acts, i);
    assert StepAt(g, states, acts, i);
    EpochStep(g, states[i], acts[i], states[i + 1]);
  }

  lemma RunOf(g: Content, states: seq<State>, acts: seq<Action>)
    ensures RunFrom(g, states, acts) ==> Run(g, states, acts)
  {
    hide Run;
  }

  lemma {:induction false} EpochStable(g: Content, states: seq<State>, acts: seq<Action>, i: nat, j: nat)
    requires RunFrom(g, states, acts) && i <= j < |states| && states[i].epoch == states[j].epoch
    requires Steady(states, acts, i, j)
    ensures forall x :: Stable(states[i], x) ==> Stable(states[j], x)
    decreases j
  {
    hide RunFrom, Stable;
    if i < j {
      assert RunFrom(g, states, acts) ==> Run(g, states, acts) by { RunOf(g, states, acts); }
      EpochOrder(g, states, acts, i, j - 1);
      EpochOrder(g, states, acts, j - 1, j);
      EpochStable(g, states, acts, i, j - 1);
      RunEpochStep(g, states, acts, j - 1);
    }
  }

  /** Between committed spans of one epoch the set of live shas only grows. */
  lemma EpochGrows(g: Content, states: seq<State>, acts: seq<Action>, i: nat, j: nat)
    requires RunFrom(g, states, acts) && i <= j < |states| && states[i].epoch == states[j].epoch
    requires states[i].span.Idle? && states[j].span.Idle? && Steady(states, acts, i, j)
    ensures LiveSet(states[i].db) <= LiveSet(states[j].db)
  {
    EpochStable(g, states, acts, i, j);
    AllStable(states[i]);
    AllStable(states[j]);
  }

  /** A link a push looked up between its begin and a commit that sees the
      begin-time epoch is live when the push commits. */
  lemma VerifiedLinksLive(g: Content, states: seq<State>, acts: seq<Action>, begun: nat, lookup: nat, commit: nat,
                          x: Sha)
    requires RunFrom(g, states, acts) && begun <= lookup <= commit < |states|
    requires states[begun].epoch == states[commit].epoch && Steady(states, acts, lookup, commit)
    requires states[lookup].span.Idle? && states[commit].span.Idle? && Alive(states[lookup].db, x)
    ensures Alive(states[commit].db, x)
  {
    EpochOrder(g, states, acts, begun, lookup);
    EpochOrder(g, states, acts, lookup, commit);
    EpochGrows(g, states, acts, lookup, commit);
  }

  // ---- generations ----

  lemma NoZeroAdded(s: State, a: Action, t: State)
    requires Frame(s, a, t) && !FeedsFrontier(a) && !AnyZero(s.frontier)
    ensures !AnyZero(t.frontier)
  {
    assert forall x :: Zero(t.frontier, x) ==> Zero(s.frontier, x);
  }

  lemma ZeroKept(g: Content, s: State, a: Action, t: State)
    requires Step(g, s, a, t) && !FeedsFrontier(a) && !AnyZero(s.frontier)
    ensures !AnyZero(t.frontier)
  {
    hide Step;
    StepFrame(g, s, a, t);
    NoZeroAdded(s, a, t);
  }

  lemma KidsZero(g: Content, s: State, kids: set<Sha>, t: State)
    requires Inv(g, s) && FeedKidsStep(g, s, kids, t) && BarrierOn(s) && Whole(t.db, t.marked) && !AnyZero(s.frontier)
    ensures !AnyZero(t.frontier)
  {
    hide SpanOk, PlanOk, GenOk, MarkOk, ChainOk, TrustOk, TablesOk;
    FeedKidsGen(g, s, kids, t);
  }

  lemma FeedZero(g: Content, s: State, feed: set<Sha>, t: State)
    requires Inv(g, s) && BarrierOn(s) && !AnyZero(s.frontier) && Settled(t.span) && !t.span.KidsFed?
    requires !t.span.InitStarted?
    requires t == s.(frontier := Upsert(s.frontier, feed, s.seen, 1), span := t.span)
    ensures !AnyZero(t.frontier)
  {
    hide ShapeOk, GenOk, MarkOk, Alive;
    UndoneWithin(s);
    LateFeed(g, s, feed, t);
  }

  /** Once no generation-0 row remains, none reappears in that chain. */
  lemma ZeroGone(g: Content, s: State, a: Action, t: State)
    requires Inv(g, s) && Step(g, s, a, t) && BarrierOn(s) && BarrierOn(t) && Whole(t.db, t.marked)
    requires !AnyZero(s.frontier)
    ensures !AnyZero(t.frontier)
  {
    hide Inv, AnyZero, Upsert, Page, FeedKidsStep;
    if a.PushFeed? {
      FeedZero(g, s, Feeds(a.ref), t);
    } else if a.PageFeed? {
      FeedZero(g, s, Page(g, s.db, a.pack, s.pending[a.pack], a.cursor), t);
    } else if a.FeedKids? {
      KidsZero(g, s, a.kids, t);
    } else {
      ZeroKept(g, s, a, t);
    }
  }

  /** .. in any run, for as long as its barrier chain stands. */
  lemma {:induction false} ZeroGoneForever(g: Content, states: seq<State>, acts: seq<Action>, i: nat, j: nat)
    requires RunFrom(g, states, acts) && i <= j < |states| && !AnyZero(states[i].frontier)
    requires forall k :: i <= k <= j ==> BarrierOn(states[k]) && Whole(states[k].db, states[k].marked)
    ensures !AnyZero(states[j].frontier)
    decreases j
  {
    if i < j {
      ZeroGoneForever(g, states, acts, i, j - 1);
      RunZeroStep(g, states, acts, j - 1);
    }
  }

  lemma RunZeroStep(g: Content, states: seq<State>, acts: seq<Action>, i: nat)
    requires RunFrom(g, states, acts) && i < |acts| && !AnyZero(states[i].frontier)
    requires BarrierOn(states[i]) && BarrierOn(states[i + 1]) && Whole(states[i + 1].db, states[i + 1].marked)
    ensures !AnyZero(states[i + 1].frontier)
  {
    hide Inv, Step, AnyZero;
    RunInvariant(g, states, acts, i);
    assert StepAt(g, states, acts, i);
    ZeroGone(g, states[i], acts[i], states[i + 1]);
  }

  lemma HandoffSafe(g: Content, s: State, t: State)
    requires Inv(g, s) && HandoffStep(s, t) && BarrierOn(s) && Whole(s.db, s.marked)
    ensures forall x :: SnapReachable(g, s.chain.value, x) ==> Safe(t.db, t.marked, x)
  {
    assert !AnyZero(s.frontier);
  }

  /** At the hand-over to the build, in every run, every object reachable from the
      snapshot roots is marked or has a live copy outside the cohort. */
  lemma HandoffComplete(g: Content, states: seq<State>, acts: seq<Action>, i: nat)
    requires RunFrom(g, states, acts) && i < |acts| && acts[i].Handoff?
    requires BarrierOn(states[i]) && Whole(states[i].db, states[i].marked)
    ensures var s, t := states[i], states[i + 1];
      forall x :: SnapReachable(g, s.chain.value, x) ==> Safe(t.db, t.marked, x)
  {
    hide Inv, Safe, SnapReachable;
    RunInvariant(g, states, acts, i);
    assert StepAt(g, states, acts, i);
    HandoffSafe(g, states[i], states[i + 1]);
  }

  /** Whatever stopped a retirement, the packs of its recorded intent are all live or all dead. */
  lemma RetireNeverMixed(g: Content, states: seq<State>, acts: seq<Action>, i: nat)
    requires RunFrom(g, states, acts) && i < |states| && BarrierOn(states[i]) && states[i].chain.value.retire.Some?
    ensures var s := states[i];
      var ids := s.chain.value.retire.value.ids;
      (forall p :: p in ids ==> LivePack(s.db, p)) || (forall p :: p in ids ==> !LivePack(s.db, p))
  {
    hide MarkOk, GenOk, PlanOk, SpanOk, TrustOk, TablesOk, BuildOk, CohortOk;
    RunInvariant(g, states, acts, i);
  }
}
