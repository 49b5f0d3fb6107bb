/** What each action leaves alone. */
module Frames {
  import opened Repository
  import opened Steps

  predicate TouchesStore(a: Action) {
    || a.IngestRows? || a.Reject? || a.Reap? || a.PlainPromote? || a.PlainDemote? || a.PushPromote? || a.PushDemote?
    || a.StakePack? || a.BuildRows? || a.FlipLive?
    || a.DeadMark? || a.DropRetired? || a.SweepDeadMark? || a.SweepDrop?
    || a.CompactFlip? || a.CompactDeadMark? || a.CompactDrop?
    || a.WipeRetired? || a.WipeRows? || a.WipeDead?
  }

  predicate FeedsFrontier(a: Action) {
    a.PushFeed? || a.PageFeed? || a.FeedKids? || a.Scratch?
  }

  /** A promotion is given back. */
  predicate GivesBack(a: Action) {
    a.PlainDemote? || a.PushDemote?
  }

  predicate Promotes(a: Action) {
    a.PlainPromote? || a.PushPromote?
  }

  /** Refs come to name new objects. */
  predicate Landing(a: Action) {
    a.PushLand? || a.PlainLand?
  }

  predicate MovesRefs(a: Action) {
    Landing(a) || a.Pin? || a.Unpin? || a.PushDelete? || a.PlainDelete?
  }

  /** A span that has taken a pack it may still give back, or is about to kill packs. */
  predicate RiskySpan(sp: Span) {
    sp.Promoted? || sp.PlainPromoted? || sp.Bumped? || sp.SweepBumped?
  }

  predicate StartsRisk(a: Action) {
    Promotes(a) || a.BumpEpoch? || a.SweepBump?
  }

  ghost predicate Frame(s: State, a: Action, t: State) {
    && (if a.BumpEpoch? || a.SweepBump? then t.epoch == s.epoch + 1 else t.epoch == s.epoch)
    && (!TouchesStore(a) ==> t.db == s.db)
    && (!MovesRefs(a) ==> t.refs == s.refs && t.pins == s.pins)
    && (!StartsRisk(a) && RiskySpan(t.span) ==> t.span == s.span && t.marked == s.marked && t.db == s.db)
    && (!FeedsFrontier(a) ==> forall x :: x in t.frontier ==> x in s.frontier && t.frontier[x] == s.frontier[x])
  }

  lemma EnvFrame(g: Content, s: State, a: Action, t: State)
    requires EnvFamily(g, s, a, t)
    ensures Frame(s, a, t)
  {
  }

  lemma PlainFrame(g: Content, s: State, a: Action, t: State)
    requires PlainFamily(g, s, a, t)
    ensures Frame(s, a, t)
  {
  }

  lemma WipeFrame(g: Content, s: State, a: Action, t: State)
    requires WipeFamily(g, s, a, t)
    ensures Frame(s, a, t)
  {
  }

  lemma PushFrame(g: Content, s: State, a: Action, t: State)
    requires PushFamily(g, s, a, t)
    ensures Frame(s, a, t)
  {
  }

  lemma WalkFrame(g: Content, s: State, a: Action, t: State)
    requires WalkFamily(g, s, a, t)
    ensures Frame(s, a, t)
  {
    hide MarkRoot, Alive, HitBits, Kids, Whole;
  }

  lemma PageFrame(g: Content, s: State, a: Action, t: State)
    requires PageFamily(g, s, a, t)
    ensures Frame(s, a, t)
  {
  }

  lemma BuildFrame(g: Content, s: State, a: Action, t: State)
    requires BuildFamily(g, s, a, t)
    ensures Frame(s, a, t)
  {
    hide BuiltSha, Ordinals, Whole, Placed, Fresh, Frozen;
  }

  lemma RetireFrame(g: Content, s: State, a: Action, t: State)
    requires RetireFamily(g, s, a, t)
    ensures Frame(s, a, t)
  {
  }

  lemma FinishFrame(g: Content, s: State, a: Action, t: State)
    requires FinishFamily(g, s, a, t)
    ensures Frame(s, a, t)
  {
    hide DedupMarks, Exhausted, SetState;
  }

  lemma StoreFrame(g: Content, s: State, a: Action, t: State)
    requires Step(g, s, a, t) && !TouchesStore(a)
    ensures t.db == s.db
  {
    hide Step;
    StepFrame(g, s, a, t);
  }

  lemma StepFrame(g: Content, s: State, a: Action, t: State)
    requires Step(g, s, a, t)
    ensures Frame(s, a, t)
  {
    hide EnvFamily, PlainFamily, PushFamily, WalkFamily, PageFamily, BuildFamily, RetireFamily, WipeFamily,
      FinishFamily, Frame;
    if EnvAction(a) { EnvFrame(g, s, a, t); }
    else if PlainAction(a) { PlainFrame(g, s, a, t); }
    else if PushAction(a) { PushFrame(g, s, a, t); }
    else if WalkAction(a) { WalkFrame(g, s, a, t); }
    else if PageAction(a) { PageFrame(g, s, a, t); }
    else if BuildAction(a) { BuildFrame(g, s, a, t); }
    else if RetireAction(a) { RetireFrame(g, s, a, t); }
    else if WipeAction(a) { WipeFrame(g, s, a, t); }
    else { FinishFrame(g, s, a, t); }
  }
}
