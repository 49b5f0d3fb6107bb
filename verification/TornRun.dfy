/** A run that tears: the smallest one, written out.  One pack holds a referenced object and
    one that nothing names; the barrier chain copies the first into its build pack and
    publishes the sweep.  Left alone the sweep collects the second; with a wipe cut after its
    row delete it loses the first. */
module TornRun {
  import opened Repository
  import opened Steps
  import opened Invariant
  import opened Runs
  import opened Traces

  /** A referenced object, one that nothing names, a pushed pack, a build pack, a ref. */
  datatype Names = Names(x: Sha, y: Sha, p: PackId, n: PackId, main: RefName)

  predicate Distinct(w: Names) {
    w.x != w.y && w.p != w.n
  }

  function NoLinks(x: Sha): set<Sha> { {} }

  function AllBlobs(x: Sha): Kind { Blob }

  function Blobs(w: Names): Content { Content(NoLinks, AllBlobs, (p, i) => if i == 0 then w.x else w.y) }

  // ---- the states ----

  function Rows(w: Names): map<Sha, nat> { map[w.x := 0, w.y := 1] }

  function At(db: Store, w: Names): State {
    State(db, map[w.main := Ref(w.x, None)], map[], 0, 0, None, 0, map[], map[], {}, map[], None, Idle)
  }

  function Alone(w: Names): Store {
    Store(map[w.p := PackRow(Live, 2, true)], map[w.p := Rows(w)])
  }

  function Beside(w: Names, row: PackRow, rows: map<Sha, nat>): Store {
    Store(map[w.p := PackRow(Live, 2, true), w.n := row], map[w.p := Rows(w), w.n := rows])
  }

  function Begun(w: Names): Chain {
    Chain(0, FlagOff, Mark, 0, None, None, None, {}, {w.x}, {w.x, w.y}, false, false)
  }

  function Batch(w: Names): Plan { Plan(0, Mark, 0, map[w.x := w.p], {}) }

  function S0(w: Names): State { At(Alone(w), w) }
  function S1(w: Names): State { S0(w).(marked := map[w.p := Marks({}, None)], frontier := map[w.x := 0]) }
  function S2(w: Names): State { S1(w).(chain := Some(Begun(w)), nextChain := 1, span := InitStarted) }
  function S3(w: Names): State { S2(w).(chain := Some(Begun(w).(mode := Barrier)), span := Idle) }
  function S4(w: Names): State { S3(w).(plan := Some(Batch(w))) }
  function S5(w: Names): State { S4(w).(marked := map[w.p := Marks({0}, None)], span := BitsFlushed({w.x})) }
  function S6(w: Names): State { S5(w).(seen := {w.x}, span := SeenWritten({w.x})) }
  function S7(w: Names): State { S6(w).(span := KidsFed({w.x})) }
  function S8(w: Names): State { S7(w).(frontier := map[], plan := Some(Plan(0, Mark, 0, map[], {})), span := Idle) }
  function S9(w: Names): State { S8(w).(chain := Some(Begun(w).(mode := Barrier, phase := Build)), plan := None) }

  /** The barrier chain from its build on. */
  function Built(w: Names, phase: Phase, pack: Option<PackId>, pos: Option<set<Sha>>, it: Option<Intent>,
                 torn: bool): Chain {
    Chain(0, Barrier, phase, 0, pack, pos, it, {}, {w.x}, {w.x, w.y}, torn, false)
  }

  function Later(w: Names, db: Store, c: Chain, epoch: nat, sp: Span): State {
    State(db, map[w.main := Ref(w.x, None)], map[], epoch, 0, Some(c), 1, map[w.p := Marks({0}, Some({0}))],
          map[], {w.x}, map[], None, sp)
  }

  function Killed(w: Names): Intent { Intent({w.p}, true, false) }

  function S10(w: Names): State { Later(w, Alone(w), Built(w, Build, None, None, None, false), 0, Idle) }
  function S11(w: Names): State {
    Later(w, Beside(w, PackRow(Ingesting, 0, false), map[]), Built(w, Build, None, None, None, false), 0, Staked(w.n))
  }
  function S12(w: Names): State {
    Later(w, Beside(w, PackRow(Ingesting, 0, false), map[]), Built(w, Build, Some(w.n), None, None, false), 0, Named)
  }
  function S13(w: Names): State {
    Later(w, Beside(w, PackRow(Ingesting, 0, false), map[]), Built(w, Build, Some(w.n), Some({}), None, false), 0, Idle)
  }
  function S14(w: Names): State {
    Later(w, Beside(w, PackRow(Ingesting, 0, false), map[w.x := 0]),
          Built(w, Build, Some(w.n), Some({}), None, false), 0, Idle)
  }
  function S15(w: Names): State {
    Later(w, Beside(w, PackRow(Live, 1, false), map[w.x := 0]), Built(w, Build, Some(w.n), Some({}), None, false), 0,
      Idle)
  }

  /** The sweep is published. */
  function S16(w: Names): State {
    Later(w, Beside(w, PackRow(Live, 1, false), map[w.x := 0]), Built(w, Sweep, Some(w.n), Some({}), None, false), 0,
      Idle)
  }

  function S17(w: Names): State {
    Later(w, Beside(w, PackRow(Live, 1, false), map[]), Built(w, Sweep, Some(w.n), Some({}), None, false), 0,
      Wiping(true))
  }

  /** The wipe is cut: the build pack is live and empty. */
  function S18(w: Names): State {
    Later(w, Beside(w, PackRow(Live, 1, false), map[]), Built(w, Sweep, Some(w.n), Some({}), None, true), 0, Idle)
  }

  function S19(w: Names): State {
    Later(w, Beside(w, PackRow(Live, 1, false), map[]), Built(w, Sweep, Some(w.n), Some({}), Some(Killed(w)), true),
          0, Intended(Killed(w)))
  }

  function S20(w: Names): State {
    Later(w, Beside(w, PackRow(Live, 1, false), map[]), Built(w, Sweep, Some(w.n), Some({}), Some(Killed(w)), true),
          1, Bumped(Killed(w)))
  }

  function S21(w: Names): State {
    Later(w, Store(map[w.p := PackRow(Dead, 2, true), w.n := PackRow(Live, 1, false)],
      map[w.p := Rows(w), w.n := map[]]),
          Built(w, Sweep, Some(w.n), Some({}), Some(Killed(w)), true), 1, DeadMarked(Killed(w)))
  }

  // The sweep goes on undisturbed.

  function Kept(w: Names): map<PackId, map<Sha, nat>> { map[w.p := Rows(w), w.n := map[w.x := 0]] }

  function C17(w: Names): State {
    Later(w, Beside(w, PackRow(Live, 1, false), map[w.x := 0]),
          Built(w, Sweep, Some(w.n), Some({}), Some(Killed(w)), false), 0, Intended(Killed(w)))
  }

  function C18(w: Names): State {
    Later(w, Beside(w, PackRow(Live, 1, false), map[w.x := 0]),
          Built(w, Sweep, Some(w.n), Some({}), Some(Killed(w)), false), 1, Bumped(Killed(w)))
  }

  function C19(w: Names): State {
    Later(w, Store(map[w.p := PackRow(Dead, 2, true), w.n := PackRow(Live, 1, false)], Kept(w)),
          Built(w, Sweep, Some(w.n), Some({}), Some(Killed(w)), false), 1, DeadMarked(Killed(w)))
  }

  function C20(w: Names): State {
    C19(w).(db := C19(w).db.(rows := map[w.n := map[w.x := 0]]))
  }

  function C21(w: Names): State { C20(w).(chain := None, span := Idle) }

  // ---- the steps ----

  lemma InitRoots(w: Names)
    requires Distinct(w)
    ensures LiveSet(S1(w).db) == {w.x, w.y} && forall x :: MarkRoot(Blobs(w), S1(w), x) <==> x == w.x
  {
    assert LiveCopy(S1(w).db, w.x, w.p) && LiveCopy(S1(w).db, w.y, w.p);
    assert forall x, p :: LiveCopy(S1(w).db, x, p) ==> p == w.p && x in {w.x, w.y};
    assert S1(w).refs[w.main].target == w.x;
    assert forall x :: RefRoot(S1(w).refs, S1(w).pins, x) <==> x == w.x;
  }

  lemma OneBit(w: Names)
    requires Distinct(w)
    ensures HitBits(S4(w).db, Batch(w), w.p) == {0}
  {
    var bits := HitBits(S4(w).db, Batch(w), w.p);
    assert w.x in Batch(w).hits && Copy(S4(w).db, w.x, w.p);
    assert S4(w).db.rows[w.p][w.x] in bits;
  }

  lemma SwapFound(w: Names)
    requires Distinct(w)
    ensures SwapIds(S18(w).marked) == {w.p} && Lossy(S18(w).db, S18(w).marked, {w.p})
  {
    assert w.p in SwapIds(S18(w).marked);
    assert 1 < S18(w).db.packs[w.p].count && 1 !in BuiltBits(S18(w).marked[w.p]);
  }

  lemma OnlyX(s: State, w: Names)
    requires Distinct(w) && s.marked == map[w.p := Marks({0}, Some({0}))] && w.p in s.db.rows
    requires s.db.rows[w.p] == Rows(w)
    ensures forall x :: BuiltSha(s.db, s.marked, x) <==> x == w.x
  {
    assert BuiltCopy(s.db, s.marked, w.x, w.p);
  }

  lemma Step0(w: Names)
    requires Distinct(w)
    ensures ScratchStep(S0(w), S1(w))
  {
  }

  lemma Step1(w: Names)
    requires Distinct(w)
    ensures InitMarkStep(Blobs(w), S1(w), S2(w))
  {
    InitRoots(w);
    assert S1(w).frontier.Keys == {w.x};
  }

  lemma Step2(w: Names)
    requires Distinct(w)
    ensures StampBarrierStep(S2(w), S3(w))
  {
  }

  lemma Step3(w: Names)
    requires Distinct(w)
    ensures PlanBatchStep(S3(w), Batch(w), S4(w))
  {
  }

  lemma Step4(w: Names)
    requires Distinct(w)
    ensures FlushBitsStep(S4(w), {w.x}, S5(w))
  {
    OneBit(w);
    assert {w.x} <= Batch(w).hits.Keys;
    assert S4(w).marked[w.p].bitmap + {0} == {0};
    assert S5(w).marked == map p | p in S4(w).marked ::
      Marks(S4(w).marked[p].bitmap + HitBits(S4(w).db, Batch(w), p), S4(w).marked[p].built);
  }

  lemma Step5(w: Names)
    requires Distinct(w)
    ensures WriteSeenStep(S5(w), S6(w))
  {
  }

  lemma Step6(w: Names)
    requires Distinct(w)
    ensures FeedKidsStep(Blobs(w), S6(w), {}, S7(w))
  {
    assert Kids(Blobs(w), {w.x}) == {};
    assert Upsert(S6(w).frontier, {}, {w.x}, 0) == S6(w).frontier;
  }

  lemma Step7(w: Names)
    requires Distinct(w)
    ensures DropExpandedStep(S7(w), S8(w))
  {
    assert map[w.x := w.p] - {w.x} == map[];
    assert S7(w).frontier - {w.x} == map[];
    assert S7(w).plan.value.misses - {w.x} == {};
  }

  lemma Step8(w: Names)
    requires Distinct(w)
    ensures HandoffStep(S8(w), S9(w))
  {
  }

  lemma Step9(w: Names)
    requires Distinct(w)
    ensures FreezeBuiltStep(S9(w), S10(w))
  {
    assert S10(w).marked == map p | p in S9(w).marked :: Marks(S9(w).marked[p].bitmap, Some(S9(w).marked[p].bitmap));
  }

  lemma Step10(w: Names)
    requires Distinct(w)
    ensures StakePackStep(S10(w), w.n, S11(w))
  {
    assert S10(w).db.packs[w.n := PackRow(Ingesting, 0, false)] == S11(w).db.packs;
    assert S10(w).db.rows[w.n := map[]] == S11(w).db.rows;
    assert w.p in S10(w).marked;
  }

  lemma Step11(w: Names)
    requires Distinct(w)
    ensures NamePackStep(S11(w), S12(w))
  {
  }

  lemma Step12(w: Names)
    requires Distinct(w)
    ensures OpenPosStep(S12(w), S13(w))
  {
  }

  lemma Step13(w: Names)
    requires Distinct(w)
    ensures BuildRowsStep(S13(w), map[w.x := 0], S14(w))
    ensures S13(w).chain.value.newPack == Some(w.n) && Placed(Blobs(w), w.n, map[w.x := 0])
  {
    OnlyX(S13(w), w);
    assert map[w.x := 0] + map[] == map[w.x := 0];
    assert S13(w).db.rows[w.n := map[w.x := 0]] == S14(w).db.rows;
  }

  lemma Step14(w: Names)
    requires Distinct(w)
    ensures FlipLiveStep(S14(w), 1, S15(w))
  {
    OnlyX(S14(w), w);
    assert S14(w).db.packs[w.n := PackRow(Live, 1, false)] == S15(w).db.packs;
  }

  lemma Step15(w: Names)
    requires Distinct(w)
    ensures PublishSweepStep(S15(w), S16(w))
  {
  }

  lemma Step16(w: Names)
    requires Distinct(w)
    ensures WipeRowsStep(S16(w), true, S17(w))
  {
    assert w.p in S16(w).marked;
    assert S16(w).db.rows[w.n := map[]] == S17(w).db.rows;
  }

  lemma Step17(w: Names)
    requires Distinct(w)
    ensures StopStep(S17(w), S18(w))
  {
    OnlyX(S17(w), w);
    assert BuiltSha(S17(w).db, S17(w).marked, w.x);
  }

  lemma Step18(w: Names)
    requires Distinct(w)
    ensures RecordSwapStep(S18(w), S19(w))
  {
    hide Lossy, SwapIds;
    SwapFound(w);
  }

  lemma Step19(w: Names)
    requires Distinct(w)
    ensures BumpEpochStep(S19(w), S20(w))
  {
  }

  lemma Step20(w: Names)
    requires Distinct(w)
    ensures DeadMarkStep(S20(w), S21(w))
  {
    assert SetState(S20(w).db.packs, {w.p}, Dead) == S21(w).db.packs;
  }

  lemma CleanFound(w: Names)
    requires Distinct(w)
    ensures SwapIds(S16(w).marked) == {w.p} && Lossy(S16(w).db, S16(w).marked, {w.p})
  {
    assert w.p in S16(w).marked && 1 !in BuiltBits(S16(w).marked[w.p]);
  }

  lemma Clean16(w: Names)
    requires Distinct(w)
    ensures RecordSwapStep(S16(w), C17(w))
  {
    hide Lossy, SwapIds;
    CleanFound(w);
  }

  lemma Clean17(w: Names)
    ensures BumpEpochStep(C17(w), C18(w))
  {
  }

  lemma Clean18(w: Names)
    requires Distinct(w)
    ensures DeadMarkStep(C18(w), C19(w))
  {
    assert SetState(C18(w).db.packs, {w.p}, Dead) == C19(w).db.packs;
  }

  lemma Clean19(w: Names)
    requires Distinct(w)
    ensures DropRetiredStep(C19(w), C20(w)) && EndChainStep(C20(w), C21(w))
  {
    assert C19(w).db.rows - {w.p} == C20(w).db.rows;
  }

  // ---- the run ----

  lemma Seeds(w: Names)
    requires Distinct(w) && Leads(Blobs(w), S0(w), S0(w))
    ensures Leads(Blobs(w), S0(w), S4(w))
  {
    hide Leads, Blobs, Distinct, S0, S1, S2, S3, S4, InitMarkStep, PlanBatchStep, ScratchStep, StampBarrierStep;
    Step0(w);
    LeadsStep(Blobs(w), S0(w), S0(w), Scratch, S1(w));
    Step1(w);
    LeadsStep(Blobs(w), S0(w), S1(w), InitMark, S2(w));
    Step2(w);
    LeadsStep(Blobs(w), S0(w), S2(w), StampBarrier, S3(w));
    Step3(w);
    LeadsStep(Blobs(w), S0(w), S3(w), PlanBatch(Batch(w)), S4(w));
  }

  lemma Walks(w: Names)
    requires Distinct(w) && Leads(Blobs(w), S0(w), S4(w))
    ensures Leads(Blobs(w), S0(w), S8(w))
  {
    hide Leads, Blobs, Distinct, S0, S4, S5, S6, S7, S8, DropExpandedStep, FeedKidsStep, FlushBitsStep, WriteSeenStep;
    Step4(w);
    LeadsStep(Blobs(w), S0(w), S4(w), FlushBits({w.x}), S5(w));
    Step5(w);
    LeadsStep(Blobs(w), S0(w), S5(w), WriteSeen, S6(w));
    Step6(w);
    LeadsStep(Blobs(w), S0(w), S6(w), FeedKids({}), S7(w));
    Step7(w);
    LeadsStep(Blobs(w), S0(w), S7(w), DropExpanded, S8(w));
  }

  lemma Hands(w: Names)
    requires Distinct(w) && Leads(Blobs(w), S0(w), S8(w))
    ensures Leads(Blobs(w), S0(w), S10(w))
  {
    hide Leads, Blobs, Distinct, S0, S8, S9, S10, FreezeBuiltStep, HandoffStep;
    Step8(w);
    LeadsStep(Blobs(w), S0(w), S8(w), Handoff, S9(w));
    Step9(w);
    LeadsStep(Blobs(w), S0(w), S9(w), FreezeBuilt, S10(w));
  }

  lemma Stakes(w: Names)
    requires Distinct(w) && Leads(Blobs(w), S0(w), S10(w))
    ensures Leads(Blobs(w), S0(w), S11(w))
  {
    hide Leads, Blobs, Distinct, S0, S10, S11, StakePackStep;
    Step10(w);
    LeadsStep(Blobs(w), S0(w), S10(w), StakePack(w.n), S11(w));
  }

  lemma Opens(w: Names)
    requires Distinct(w) && Leads(Blobs(w), S0(w), S11(w))
    ensures Leads(Blobs(w), S0(w), S13(w))
  {
    hide Leads, Blobs, Distinct, S0, S11, S12, S13, NamePackStep, OpenPosStep;
    Step11(w);
    LeadsStep(Blobs(w), S0(w), S11(w), NamePack, S12(w));
    Step12(w);
    LeadsStep(Blobs(w), S0(w), S12(w), OpenPos, S13(w));
  }

  lemma Publishes(w: Names)
    requires Distinct(w) && Leads(Blobs(w), S0(w), S13(w))
    ensures Leads(Blobs(w), S0(w), S16(w))
  {
    hide Leads, Blobs, Distinct, S0, S13, S14, S15, S16, BuildRowsStep, FlipLiveStep, PublishSweepStep, Placed;
    Step13(w);
    LeadsStep(Blobs(w), S0(w), S13(w), BuildRows(map[w.x := 0]), S14(w));
    Step14(w);
    LeadsStep(Blobs(w), S0(w), S14(w), FlipLive(1), S15(w));
    Step15(w);
    LeadsStep(Blobs(w), S0(w), S15(w), PublishSweep, S16(w));
  }

  lemma Wipes(w: Names)
    requires Distinct(w) && Leads(Blobs(w), S0(w), S16(w))
    ensures Leads(Blobs(w), S0(w), S18(w))
  {
    hide Leads, Blobs, Distinct, S0, S16, S17, S18, StopStep, WipeRowsStep;
    Step16(w);
    LeadsStep(Blobs(w), S0(w), S16(w), WipeRows(true), S17(w));
    Step17(w);
    LeadsStep(Blobs(w), S0(w), S17(w), Stop, S18(w));
  }

  lemma Loses(w: Names)
    requires Distinct(w) && Leads(Blobs(w), S0(w), S18(w))
    ensures Leads(Blobs(w), S0(w), S21(w))
  {
    hide Leads, Blobs, Distinct, S0, S18, S19, S20, S21, BumpEpochStep, DeadMarkStep, RecordSwapStep;
    Step18(w);
    LeadsStep(Blobs(w), S0(w), S18(w), RecordSwap, S19(w));
    Step19(w);
    LeadsStep(Blobs(w), S0(w), S19(w), BumpEpoch, S20(w));
    Step20(w);
    LeadsStep(Blobs(w), S0(w), S20(w), DeadMark, S21(w));
  }

  lemma Sweeps(w: Names)
    requires Distinct(w) && Leads(Blobs(w), S0(w), S16(w))
    ensures Leads(Blobs(w), S0(w), C19(w))
  {
    hide Leads, Blobs, Distinct, S0, S16, C17, C18, C19, BumpEpochStep, DeadMarkStep, RecordSwapStep;
    Clean16(w);
    LeadsStep(Blobs(w), S0(w), S16(w), RecordSwap, C17(w));
    Clean17(w);
    LeadsStep(Blobs(w), S0(w), C17(w), BumpEpoch, C18(w));
    Clean18(w);
    LeadsStep(Blobs(w), S0(w), C18(w), DeadMark, C19(w));
  }

  lemma Ends(w: Names)
    requires Distinct(w) && Leads(Blobs(w), S0(w), C19(w))
    ensures Leads(Blobs(w), S0(w), C21(w))
  {
    hide Leads, Blobs, Distinct, S0, C19, C20, C21, DropRetiredStep, EndChainStep;
    Clean19(w);
    LeadsStep(Blobs(w), S0(w), C19(w), DropRetired, C20(w));
    LeadsStep(Blobs(w), S0(w), C20(w), EndChain, C21(w));
  }

  lemma Starts(w: Names)
    requires Distinct(w)
    ensures BlobsAreLeaves(Blobs(w)) && Start(S0(w))
  {
  }

  lemma Reach(w: Names)
    requires Distinct(w)
    ensures Leads(Blobs(w), S0(w), S16(w)) && Leads(Blobs(w), S0(w), S21(w)) && Leads(Blobs(w), S0(w), C21(w))
  {
    hide Leads, Blobs, Distinct, S0, S16, S21, C21;
    LeadsSelf(Blobs(w), S0(w));
    Seeds(w);
    Walks(w);
    Hands(w);
    Stakes(w);
    Opens(w);
    Publishes(w);
    Sweeps(w);
    Ends(w);
    Wipes(w);
    Loses(w);
  }

  lemma FromStart(w: Names, t: State)
    requires Distinct(w) && Leads(Blobs(w), S0(w), t)
    ensures exists states, acts :: RunFrom(Blobs(w), states, acts) && states[|states| - 1] == t
    ensures Inv(Blobs(w), t)
  {
    hide Step, StepAt, Start, BlobsAreLeaves, Inv, S0, Blobs, Distinct;
    Starts(w);
    var states, acts :| RunBetween(Blobs(w), S0(w), t, states, acts);
    assert RunFrom(Blobs(w), states, acts);
    RunInvariant(Blobs(w), states, acts, |acts|);
  }

  /** Loss by a torn chain is real: runs from a repository at rest publish this sweep with the
      invariant holding, nothing torn and the object live, and reach a state in which a ref
      names an object with no live copy. */
  lemma ReachableLoss(w: Names)
    requires Distinct(w)
    ensures Inv(Blobs(w), S16(w)) && !Torn(S16(w)) && Alive(S16(w).db, w.x)
    ensures exists states, acts :: RunFrom(Blobs(w), states, acts) && states[|states| - 1] == S21(w)
    ensures S21(w).refs[w.main].target == w.x && !Alive(S21(w).db, w.x)
  {
    hide Leads, Inv, RunFrom, Blobs;
    Reach(w);
    FromStart(w, S16(w));
    FromStart(w, S21(w));
    assert LiveCopy(S16(w).db, w.x, w.p);
    assert forall p :: !LiveCopy(S21(w).db, w.x, p);
  }

  /** Undisturbed, the same sweep ends its chain with the unnamed object gone and the referenced
      one live: a collection from first to last write. */
  lemma WholeCollection(w: Names)
    requires Distinct(w)
    ensures exists states, acts :: RunFrom(Blobs(w), states, acts) && states[|states| - 1] == C21(w)
    ensures Alive(S0(w).db, w.y) && !Alive(C21(w).db, w.y) && Alive(C21(w).db, w.x) && C21(w).chain.None?
  {
    hide Leads, Inv, RunFrom, Blobs;
    Reach(w);
    FromStart(w, C21(w));
    assert LiveCopy(S0(w).db, w.y, w.p) && LiveCopy(C21(w).db, w.x, w.n);
    assert forall p :: !LiveCopy(C21(w).db, w.y, p);
  }
}
