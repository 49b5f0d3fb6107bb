/** Every way the tables change, one SQL write at a time.

    A step relates the tables before (`s`) and after (`t`).  Writes of one
    synchronous span are tied together by `span`; `Stop` leaves a span after any
    write, which is what an error between two statements does.  Pushes, the mark
    walk, the drain, the build, the sweep, compaction, the wipes and the janitor
    interleave wherever `span` is `Idle`.  A pack without rows is absent from
    `rows` or has an empty map there. */
module Steps {
  import opened Repository

  // ---- vocabulary ----

  predicate BarrierOn(s: State) {
    s.chain.Some? && s.chain.value.mode.Barrier?
  }

  /** A random 128-bit id collides with nothing recorded. */
  predicate Fresh(s: State, p: PackId) {
    && p !in s.db.packs && p !in s.db.rows && p !in s.marked && p !in s.pending
    && (s.chain.Some? ==> s.chain.value.newPack != Some(p))
    && (s.chain.Some? && s.chain.value.retire.Some? ==> p !in s.chain.value.retire.value.ids)
  }

  predicate Ordinals(rows: map<Sha, nat>) {
    forall x, y :: x in rows && y in rows && rows[x] == rows[y] ==> x == y
  }

  /** Rows of pack p name what its bytes hold at their index. */
  predicate Placed(g: Content, p: PackId, rows: map<Sha, nat>) {
    forall x :: x in rows ==> g.entry(p, rows[x]) == x
  }

  function SetState(packs: map<PackId, PackRow>, ids: set<PackId>, st: PackState): map<PackId, PackRow> {
    map p | p in packs :: if p in ids then packs[p].(state := st) else packs[p]
  }

  function Turn(db: Store, ids: set<PackId>, st: PackState): Store {
    db.(packs := SetState(db.packs, ids, st))
  }

  /** The feed every writer of `gc_frontier` uses: skip what is in `gc_seen`, keep
      the smaller generation of a row that exists. */
  function Upsert(f: map<Sha, nat>, feed: set<Sha>, seen: set<Sha>, gen: nat): map<Sha, nat> {
    map x | x in f.Keys + (feed - seen) ::
      if x in f then (if x in feed && x !in seen && gen < f[x] then gen else f[x]) else gen
  }

  function Kids(g: Content, ids: set<Sha>): set<Sha> {
    set x, y | x in ids && y in g.links(x) :: y
  }

  /** The hits of `pl` that sit in cohort pack `p`, as entry indexes. */
  function HitBits(db: Store, pl: Plan, p: PackId): set<nat> {
    set x | x in pl.hits && pl.hits[x] == p && Copy(db, x, p) :: db.rows[p][x]
  }

  /** `phase_fence`: the slice's chain still stands and is in the slice's phase. */
  predicate Fenced(s: State) {
    && s.chain.Some? && s.plan.Some?
    && s.plan.value.chain == s.chain.value.id
    && s.plan.value.phase == s.chain.value.phase
  }

  predicate Walking(c: Chain) {
    && c.retire.None?
    && ((c.phase.Mark? && !c.mode.Compact?) || (c.phase.Sweep? && c.mode.Barrier?))
  }

  function SwapIds(m: Cohort): set<PackId> {
    set p | p in m && m[p].built.Some? && m[p].bitmap <= m[p].built.value
  }

  /** `popcount(built) < count`: some entry was not copied. */
  predicate Lossy(db: Store, m: Cohort, ids: set<PackId>) {
    exists p :: p in ids && p in m && p in db.packs
      && exists i: nat :: i < db.packs[p].count && i !in BuiltBits(m[p])
  }

  /** The bounded-retry rule: every entry was copied or has a copy outside the cohort. */
  ghost predicate FallbackPack(db: Store, m: Cohort, p: PackId) {
    && p in m && m[p].built.Some?
    && forall x :: Copy(db, x, p) ==> Outer(db, m, x) || db.rows[p][x] in m[p].built.value
  }

  ghost predicate BuildPackLive(db: Store, c: Chain) {
    c.newPack.Some? ==> LivePack(db, c.newPack.value)
  }

  /** Dead or reaped. */
  predicate Gone(db: Store, p: PackId) {
    p !in db.packs || db.packs[p].state.Dead?
  }

  function Claims(c: Chain): set<Sha> {
    if c.pos.Some? then c.pos.value else {}
  }

  // ---- cuts ----

  /** A flag-off chain whose version test still passes. */
  predicate Unmoved(s: State) {
    s.chain.Some? && s.chain.value.mode.FlagOff? && s.rv == s.chain.value.rv
  }

  /** The chain still trusts its build pack: it may go live on what the cursor claims, it
      is live, or the flag-off sweep takes it to be. */
  ghost predicate Trusted(s: State) {
    && s.chain.Some? && s.chain.value.newPack.Some?
    && var c := s.chain.value;
    && (exists x :: BuiltSha(s.db, s.marked, x))
    && ((!Gone(s.db, c.newPack.value) && (Claims(c) != {} || LivePack(s.db, c.newPack.value)))
        || (Unmoved(s) && c.phase.Sweep?))
  }

  predicate Plain(sp: Span) {
    sp.PlainPromoted? || sp.PlainOpen?
  }

  predicate Wipe(sp: Span) {
    sp.Wiping? || sp.Wiped?
  }

  /** An error here cuts a push between its first write and the `refs_version` bump under
      a flag-off chain, or a wipe of rows its chain still trusts. */
  ghost predicate Tears(s: State) {
    && s.chain.Some? && Whole(s.db, s.marked)
    && ((Plain(s.span) && Unmoved(s)) || (Wipe(s.span) && Trusted(s)))
  }

  /** The build pack may lack rows that the chain relies on. */
  predicate Hollow(s: State) {
    s.chain.Some? && s.chain.value.hollow
  }

  /** Refs or packs may have changed unnoticed by a flag-off chain. */
  predicate Missed(s: State) {
    s.chain.Some? && s.chain.value.missed
  }

  function TornBy(c: Chain, sp: Span): Chain {
    if Wipe(sp) then c.(hollow := true) else c.(missed := true)
  }

  /** The chain that stands was torn, and not mended since. */
  predicate Torn(s: State) {
    Hollow(s) || Missed(s)
  }

  datatype Action =
    | IngestRows(pack: PackId, count: nat, rows: map<Sha, nat>)
    | Reject(pack: PackId) | Reap(pack: PackId)
    | Pin(name: RefName) | Unpin(name: RefName)
    | BumpVersion | Stop | Scratch
    | PlainPromote(pack: PackId) | PlainDemote | PlainLand(name: RefName, ref: Ref) | PlainDelete(name: RefName)
    | PushPending(pack: PackId) | PushPromote(pack: PackId) | PushDemote | PushForget
    | PushFeed(name: RefName, ref: Ref) | PushLand | PushDelete(name: RefName)
    | InitMark | StampBarrier
    | PlanBatch(plan: Plan)
    | FlushBits(ids: set<Sha>) | WriteSeen | FeedKids(kids: set<Sha>) | DropExpanded
    | DropMisses(misses: set<Sha>)
    | PageFeed(pack: PackId, cursor: int) | PageMove | PageDone | DropPending
    | DropSeen | Handoff
    | FreezeBuilt | StakePack(pack: PackId) | NamePack | OpenPos
    | BuildRows(rows: map<Sha, nat>) | Claim(claims: set<Sha>)
    | FlipLive(count: nat) | PublishSweep | PublishEmpty
    | RecordSwap | RecordFallback(retire: set<PackId>) | BumpEpoch | DeadMark | DropRetired | EndChain
    | ResumeLive | ResumeDead
    | SweepBump | SweepDeadMark | SweepDrop | SweepEnd
    | InitCompact | CompactAdd(pack: PackId, bits: set<nat>)
    | CompactFlip(count: nat) | CompactDeadMark | CompactDrop | CompactEnd
    | WipeRetired(drop: set<PackId>) | WipeRows(all: bool) | WipeDead | WipeCursor | WipeMeta

  // ---- pushes and the environment ----

  /** `push_index`: rows join a pack that is still 'ingesting' for its own push;
      a repeated (sha, pack) keeps the first row. */
  ghost predicate IngestRowsStep(s: State, p: PackId, count: nat, rows: map<Sha, nat>, t: State) {
    && s.span.Idle?
    && (Fresh(s, p) || (p in s.db.packs && s.db.packs[p].state.Ingesting? && s.db.packs[p].pushed))
    && var have := if p in s.db.rows then s.db.rows[p] else map[];
    && Ordinals(rows + have)
    && t == s.(db := Store(s.db.packs[p := PackRow(Ingesting, count, true)], s.db.rows[p := rows + have]))
  }

  /** The janitor turns an abandoned ingesting pack dead and drops its rows. */
  ghost predicate RejectStep(s: State, p: PackId, t: State) {
    && s.span.Idle? && p in s.db.packs && s.db.packs[p].state.Ingesting? && s.db.packs[p].pushed
    && t == s.(db := Store(SetState(s.db.packs, {p}, Dead), s.db.rows - {p}))
  }

  ghost predicate ReapStep(s: State, p: PackId, t: State) {
    && s.span.Idle? && p in s.db.packs && s.db.packs[p].state.Dead?
    && (forall x :: !Copy(s.db, x, p))
    && t == s.(db := s.db.(packs := s.db.packs - {p}))
  }

  ghost predicate PinStep(s: State, n: RefName, t: State) {
    s.span.Idle? && n in s.refs && t == s.(pins := s.pins[n := s.refs[n].target])
  }

  ghost predicate UnpinStep(s: State, n: RefName, t: State) {
    s.span.Idle? && t == s.(pins := s.pins - {n})
  }

  predicate PushSpan(sp: Span) {
    sp.Idle? || Plain(sp) || sp.PendingWritten? || sp.Promoted? || sp.Demoted? || sp.Fed?
  }

  /** A push under a barrier bumps between what it protects and what that allows. */
  function Moved(sp: Span): Span {
    match sp
    case PendingWritten(p, _) => PendingWritten(p, true)
    case Fed(n, r, _) => Fed(n, r, true)
    case _ => sp
  }

  ghost predicate BumpVersionStep(s: State, t: State) {
    PushSpan(s.span) && t == s.(rv := s.rv + 1, span := Moved(s.span))
  }

  /** A span ends, or dies between two writes.  A garbage-collection slice that
      dies loses what it held in memory. */
  ghost predicate StopStep(s: State, t: State) {
    && (t.plan == None || (PushSpan(s.span) && t.plan == s.plan))
    && t == s.(span := Idle, plan := t.plan,
               chain := if Tears(s) then Some(TornBy(s.chain.value, s.span)) else s.chain)
  }

  /** The scratch tables belong to no chain: wiped after one, seeded before the next. */
  ghost predicate ScratchStep(s: State, t: State) {
    && s.chain.None? && s.span.Idle?
    && t == s.(marked := t.marked, frontier := t.frontier, seen := t.seen, pending := t.pending)
  }

  ghost predicate CountsCover(db: Store, p: PackId) {
    p in db.packs && (p in db.rows ==> forall x :: x in db.rows[p] ==> db.rows[p][x] < db.packs[p].count)
  }

  ghost predicate Promotable(db: Store, p: PackId) {
    p in db.packs && db.packs[p].state.Ingesting? && db.packs[p].pushed && CountsCover(db, p)
  }

  // A push while no barrier stands: promote, dry run, ref writes, `refs_version` last.

  ghost predicate PlainPromoteStep(s: State, p: PackId, t: State) {
    && s.span.Idle? && !BarrierOn(s) && Promotable(s.db, p)
    && t == s.(db := Turn(s.db, {p}, Live), span := PlainPromoted(p))
  }

  ghost predicate PlainDemoteStep(s: State, t: State) {
    s.span.PlainPromoted? && t == s.(db := Turn(s.db, {s.span.pack}, Ingesting), span := Idle)
  }

  ghost predicate PlainLandStep(s: State, n: RefName, r: Ref, t: State) {
    && (s.span.Idle? || Plain(s.span)) && !BarrierOn(s) && n !in s.pins && Alive(s.db, r.target)
    && t == s.(refs := s.refs[n := r], span := PlainOpen)
  }

  ghost predicate PlainDeleteStep(s: State, n: RefName, t: State) {
    && (s.span.Idle? || Plain(s.span)) && !BarrierOn(s) && n !in s.pins
    && t == s.(refs := s.refs - {n}, span := PlainOpen)
  }

  // A push under a barrier.

  /** The insert asks nothing of the pack; a build pack belongs to no push. */
  ghost predicate PushPendingStep(s: State, p: PackId, t: State) {
    && s.span.Idle? && BarrierOn(s)
    && s.chain.value.newPack != Some(p) && (p in s.db.packs ==> s.db.packs[p].pushed)
    && t == s.(pending := if p in s.pending then s.pending else s.pending[p := -1], span := PendingWritten(p, false))
  }

  ghost predicate PushPromoteStep(s: State, p: PackId, t: State) {
    && s.span == PendingWritten(p, true) && Promotable(s.db, p)
    && t == s.(db := Turn(s.db, {p}, Live), span := Promoted(p))
  }

  /** An atomic push whose dry run failed gives its pack back. */
  ghost predicate PushDemoteStep(s: State, t: State) {
    && s.span.Promoted?
    && t == s.(db := Turn(s.db, {s.span.pack}, Ingesting), span := Demoted(s.span.pack))
  }

  ghost predicate PushForgetStep(s: State, t: State) {
    s.span.Demoted? && t == s.(pending := s.pending - {s.span.pack}, span := Idle)
  }

  function Feeds(r: Ref): set<Sha> {
    if r.peeled.Some? then {r.target, r.peeled.value} else {r.target}
  }

  ghost predicate PushFeedStep(s: State, n: RefName, r: Ref, t: State) {
    && (s.span.Idle? || s.span.Promoted?) && BarrierOn(s)
    && n !in s.pins && Alive(s.db, r.target)
    && t == s.(frontier := Upsert(s.frontier, Feeds(r), s.seen, 1), span := Fed(n, r, false))
  }

  ghost predicate PushLandStep(s: State, t: State) {
    s.span.Fed? && s.span.bumped && t == s.(refs := s.refs[s.span.name := s.span.ref], span := Idle)
  }

  ghost predicate PushDeleteStep(s: State, n: RefName, t: State) {
    && (s.span.Idle? || s.span.Promoted?) && BarrierOn(s) && n !in s.pins
    && t == s.(refs := s.refs - {n}, span := Idle)
  }

  // ---- the mark walk and the drain ----

  /** Mark start: `gc.started_at` over a seeded cohort and frontier; the barrier stamp is
      the last write. */
  ghost predicate InitMarkStep(g: Content, s: State, t: State) {
    && s.span.Idle? && s.chain.None?
    && s.marked != map[] && (forall p :: p in s.marked ==> LivePack(s.db, p) && s.marked[p] == Marks({}, None))
    && (forall x :: x in s.frontier <==> MarkRoot(g, s, x))
    && (forall x :: x in s.frontier ==> s.frontier[x] == 0)
    && s.seen == {} && s.pending == map[]
    && t == s.(
      chain := Some(Chain(s.nextChain, FlagOff, Mark, s.rv, None, None, None, {}, s.frontier.Keys, LiveSet(s.db),
        false, false)),
      nextChain := s.nextChain + 1, plan := None, span := InitStarted)
  }

  ghost predicate StampBarrierStep(s: State, t: State) {
    && s.span.InitStarted? && s.chain.Some?
    && t == s.(chain := Some(s.chain.value.(mode := Barrier)), span := Idle)
  }

  /** Span A: pop a batch of the minimum generation and look its shas up. */
  ghost predicate PlanBatchStep(s: State, pl: Plan, t: State) {
    && s.span.Idle? && s.chain.Some? && Walking(s.chain.value)
    && pl.chain == s.chain.value.id && pl.phase == s.chain.value.phase
    && (forall x :: x in pl.hits || x in pl.misses ==> x in s.frontier && s.frontier[x] == pl.gen)
    && (forall x :: x in s.frontier ==> pl.gen <= s.frontier[x])
    && (forall x :: x in pl.hits ==> LiveCopy(s.db, x, pl.hits[x]))
    && (forall x :: x in pl.misses ==> !Alive(s.db, x))
    && t == s.(plan := Some(pl))
  }

  /** Span B, first write: the bits of the whole batch, OR-merged.  `ids` are the
      shas this commit expands; a flag-off commit counts misses as expanded. */
  ghost predicate FlushBitsStep(s: State, ids: set<Sha>, t: State) {
    && s.span.Idle? && Fenced(s) && Walking(s.chain.value)
    && ids <= (if s.chain.value.mode.Barrier? then s.plan.value.hits.Keys
      else s.plan.value.hits.Keys + s.plan.value.misses)
    && t == s.(
      marked := map p | p in s.marked ::
        Marks(s.marked[p].bitmap + HitBits(s.db, s.plan.value, p), s.marked[p].built),
      span := BitsFlushed(ids))
  }

  ghost predicate WriteSeenStep(s: State, t: State) {
    s.span.BitsFlushed? && t == s.(seen := s.seen + s.span.ids, span := SeenWritten(s.span.ids))
  }

  /** The expanded shas that were found: a miss has no bytes to read links from. */
  function Read(s: State, ids: set<Sha>): set<Sha> {
    if s.plan.Some? then ids * s.plan.value.hits.Keys else {}
  }

  /** The links of the expanded hits; a giant batch flushes links early, so links of other
      hits of the batch may ride along. */
  ghost predicate FeedKidsStep(g: Content, s: State, kids: set<Sha>, t: State) {
    && s.span.SeenWritten? && s.plan.Some?
    && Kids(g, Read(s, s.span.ids)) <= kids <= Kids(g, s.plan.value.hits.Keys)
    && t == s.(frontier := Upsert(s.frontier, kids, s.seen, s.plan.value.gen), span := KidsFed(s.span.ids))
  }

  ghost predicate DropExpandedStep(s: State, t: State) {
    && s.span.KidsFed? && s.plan.Some?
    && t == s.(
      frontier := s.frontier - s.span.ids,
      plan := Some(s.plan.value.(hits := s.plan.value.hits - s.span.ids, misses := s.plan.value.misses - s.span.ids)),
      span := Idle)
  }

  /** Barrier misses leave the frontier only while they still have no live row. */
  ghost predicate DropMissesStep(s: State, misses: set<Sha>, t: State) {
    && s.span.Idle? && Fenced(s) && BarrierOn(s) && Walking(s.chain.value) && misses <= s.plan.value.misses
    && t == s.(frontier := s.frontier - (misses - LiveSet(s.db)),
               plan := Some(s.plan.value.(misses := s.plan.value.misses - misses)))
  }

  function Page(g: Content, db: Store, p: PackId, from: int, to: int): set<Sha> {
    if p in db.rows then set x | x in db.rows[p] && !g.kind(x).Blob? && from < db.rows[p][x] <= to else {}
  }

  /** One page: the non-blobs between the cursor and its new value. */
  ghost predicate PageFeedStep(g: Content, s: State, p: PackId, cursor: int, t: State) {
    && s.span.Idle? && BarrierOn(s) && Walking(s.chain.value)
    && p in s.pending && LivePack(s.db, p) && s.pending[p] < cursor
    && t == s.(frontier := Upsert(s.frontier, Page(g, s.db, p, s.pending[p], cursor), s.seen, 1),
      span := PageFed(p, cursor))
  }

  ghost predicate PageMoveStep(s: State, t: State) {
    && s.span.PageFed? && s.span.pack in s.pending
    && t == s.(pending := s.pending[s.span.pack := s.span.cursor], span := PageMoved(s.span.pack))
  }

  ghost predicate PageDoneStep(s: State, t: State) {
    && s.span.PageMoved? && s.span.pack in s.pending
    && (forall x :: Copy(s.db, x, s.span.pack) ==> s.db.rows[s.span.pack][x] <= s.pending[s.span.pack])
    && t == s.(pending := s.pending - {s.span.pack}, span := Idle)
  }

  ghost predicate DropPendingStep(s: State, t: State) {
    && s.span.Idle? && BarrierOn(s)
    && t == s.(pending := map p | p in s.pending && LivePack(s.db, p) :: s.pending[p])
  }

  ghost predicate DropSeenStep(s: State, t: State) {
    && s.span.Idle? && s.chain.Some? && s.chain.value.mode.FlagOff? && s.chain.value.phase.Mark?
    && s.frontier == map[]
    && t == s.(seen := {}, chain := Some(s.chain.value.(done := s.chain.value.done + s.seen)), plan := None)
  }

  ghost predicate HandoffStep(s: State, t: State) {
    && s.span.Idle? && s.chain.Some? && s.chain.value.phase.Mark?
    && (s.chain.value.mode.FlagOff? ==> s.frontier == map[])
    && (s.chain.value.mode.Barrier? ==> forall x :: x in s.frontier ==> s.frontier[x] >= 1)
    && t == s.(chain := Some(s.chain.value.(phase := Build)), plan := None)
  }

  // ---- the build ----

  predicate Beginning(s: State) {
    s.span.Idle? && s.chain.Some? && s.chain.value.phase.Build? && s.chain.value.pos.None? && Whole(s.db, s.marked)
  }

  ghost predicate FreezeBuiltStep(s: State, t: State) {
    && Beginning(s) && BarrierOn(s)
    && t == s.(marked := map p | p in s.marked :: Marks(s.marked[p].bitmap, Some(s.marked[p].bitmap)))
  }

  predicate Frozen(m: Cohort, c: Chain) {
    c.mode.Barrier? ==> forall p :: p in m ==> m[p].built.Some?
  }

  // `begin_build`: the pack's row, its name, the cursor.

  ghost predicate StakePackStep(s: State, n: PackId, t: State) {
    && Beginning(s) && s.marked != map[] && Frozen(s.marked, s.chain.value) && Fresh(s, n)
    && t == s.(db := Store(s.db.packs[n := PackRow(Ingesting, 0, false)], s.db.rows[n := map[]]), span := Staked(n))
  }

  ghost predicate NamePackStep(s: State, t: State) {
    && s.span.Staked? && s.chain.Some?
    && t == s.(chain := Some(s.chain.value.(newPack := Some(s.span.pack))), span := Named)
  }

  ghost predicate OpenPosStep(s: State, t: State) {
    && s.span.Named? && s.chain.Some?
    && t == s.(chain := Some(s.chain.value.(pos := Some({}))), span := Idle)
  }

  predicate Building(s: State) {
    && s.span.Idle? && s.chain.Some? && s.chain.value.phase.Build? && s.chain.value.newPack.Some?
    && s.chain.value.pos.Some? && s.chain.value.newPack.value in s.db.rows
  }

  ghost predicate BuildRowsStep(s: State, rows: map<Sha, nat>, t: State) {
    && Building(s) && Whole(s.db, s.marked)
    && var n := s.chain.value.newPack.value;
    && !LivePack(s.db, n)
    && (forall x :: x in rows ==> BuiltSha(s.db, s.marked, x))
    && Ordinals(rows + s.db.rows[n])
    && t == s.(db := s.db.(rows := s.db.rows[n := rows + s.db.rows[n]]))
  }

  /** The cursor is stored after the rows it covers. */
  ghost predicate ClaimStep(s: State, claims: set<Sha>, t: State) {
    && Building(s) && claims <= Claims(s.chain.value) + s.db.rows[s.chain.value.newPack.value].Keys
    && t == s.(chain := Some(s.chain.value.(pos := Some(claims))))
  }

  /** The input is exhausted: every built sha is behind the cursor or was posted since. */
  ghost predicate Exhausted(s: State) {
    && Building(s) && Whole(s.db, s.marked)
    && forall x :: BuiltSha(s.db, s.marked, x) ==>
         x in Claims(s.chain.value) || x in s.db.rows[s.chain.value.newPack.value]
  }

  /** `finish_build`: the pack goes live; a dead or missing row is an error. */
  ghost predicate FlipLiveStep(s: State, count: nat, t: State) {
    && Exhausted(s) && !s.chain.value.mode.Compact?
    && var n := s.chain.value.newPack.value;
    && !Gone(s.db, n) && (forall x :: x in s.db.rows[n] ==> s.db.rows[n][x] < count)
    && t == s.(db := s.db.(packs := s.db.packs[n := PackRow(Live, count, false)]))
  }

  ghost predicate PublishSweepStep(s: State, t: State) {
    && Building(s) && !s.chain.value.mode.Compact? && LivePack(s.db, s.chain.value.newPack.value)
    && t == s.(chain := Some(s.chain.value.(phase := Sweep)), plan := None)
  }

  /** Nothing reachable in any candidate: no pack is written. */
  ghost predicate PublishEmptyStep(s: State, t: State) {
    && s.span.Idle? && s.chain.Some? && s.chain.value.phase.Build? && !s.chain.value.mode.Compact?
    && Whole(s.db, s.marked) && Frozen(s.marked, s.chain.value) && s.chain.value.newPack.None?
    && (forall p :: p in s.marked ==> BuiltBits(s.marked[p]) == {})
    && t == s.(chain := Some(s.chain.value.(phase := Sweep)), plan := None)
  }

  // ---- the barrier sweep ----

  predicate Sweeping(s: State) {
    s.span.Idle? && BarrierOn(s) && s.chain.value.phase.Sweep?
  }

  ghost predicate RecordSwapStep(s: State, t: State) {
    && Sweeping(s) && s.chain.value.retire.None?
    && s.frontier == map[] && s.pending == map[]
    && Whole(s.db, s.marked) && BuildPackLive(s.db, s.chain.value)
    && SwapIds(s.marked) != {}
    && var it := Intent(SwapIds(s.marked), Lossy(s.db, s.marked, SwapIds(s.marked)), false);
    && t == s.(chain := Some(s.chain.value.(retire := Some(it))), plan := None, span := Intended(it))
  }

  ghost predicate RecordFallbackStep(s: State, ids: set<PackId>, t: State) {
    && Sweeping(s) && s.chain.value.retire.None?
    && Whole(s.db, s.marked) && BuildPackLive(s.db, s.chain.value)
    && ids != {} && (forall p :: p in ids <==> FallbackPack(s.db, s.marked, p))
    && var it := Intent(ids, false, true);
    && t == s.(chain := Some(s.chain.value.(retire := Some(it))), plan := None, span := Intended(it))
  }

  ghost predicate BumpEpochStep(s: State, t: State) {
    s.span.Intended? && s.span.intent.lossy && t == s.(epoch := s.epoch + 1, span := Bumped(s.span.intent))
  }

  /** One statement kills exactly the recorded ids. */
  ghost predicate DeadMarkStep(s: State, t: State) {
    && (s.span.Bumped? || (s.span.Intended? && !s.span.intent.lossy))
    && t == s.(db := Turn(s.db, s.span.intent.ids, Dead), span := DeadMarked(s.span.intent))
  }

  ghost predicate DropRetiredStep(s: State, t: State) {
    s.span.DeadMarked? && t == s.(db := s.db.(rows := s.db.rows - s.span.intent.ids))
  }

  ghost predicate EndChainStep(s: State, t: State) {
    && s.span.DeadMarked? && s.db.rows.Keys !! s.span.intent.ids
    && t == s.(chain := None, plan := None, span := Idle)
  }

  ghost predicate ResumeLiveStep(s: State, t: State) {
    && Sweeping(s) && s.chain.value.retire.Some?
    && (forall p :: p in s.chain.value.retire.value.ids ==> LivePack(s.db, p))
    && t == s.(chain := Some(s.chain.value.(retire := None)), plan := None)
  }

  ghost predicate ResumeDeadStep(s: State, t: State) {
    && Sweeping(s) && s.chain.value.retire.Some?
    && (forall p :: p in s.chain.value.retire.value.ids ==> !LivePack(s.db, p))
    && t == s.(span := DeadMarked(s.chain.value.retire.value), plan := None)
  }

  // ---- the flag-off sweep ----

  ghost predicate SweepBumpStep(s: State, t: State) {
    && s.span.Idle? && s.chain.Some? && s.chain.value.mode.FlagOff? && s.chain.value.phase.Sweep?
    && s.rv == s.chain.value.rv
    && t == s.(epoch := s.epoch + 1, span := SweepBumped, plan := None)
  }

  ghost predicate SweepDeadMarkStep(s: State, t: State) {
    s.span.SweepBumped? && t == s.(db := Turn(s.db, s.marked.Keys, Dead), span := SweepDead)
  }

  ghost predicate SweepDropStep(s: State, t: State) {
    s.span.SweepDead? && t == s.(db := s.db.(rows := s.db.rows - s.marked.Keys))
  }

  ghost predicate SweepEndStep(s: State, t: State) {
    s.span.SweepDead? && s.db.rows.Keys !! s.marked.Keys && t == s.(chain := None, plan := None, span := Idle)
  }

  // ---- compaction ----

  /** Every cohort sha is marked in exactly one of its cohort copies. */
  ghost predicate DedupMarks(db: Store, marks: map<PackId, Marks>) {
    && (forall p :: p in marks ==> marks[p].built.None?)
    && (forall p, x :: p in marks && Copy(db, x, p) ==>
         exists q :: q in marks && Copy(db, x, q) && db.rows[q][x] in marks[q].bitmap)
    && (forall p, q, x ::
         (p in marks && q in marks && Copy(db, x, p) && Copy(db, x, q)
          && db.rows[p][x] in marks[p].bitmap && db.rows[q][x] in marks[q].bitmap) ==> p == q)
  }

  /** The stake's meta over wiped scratch tables; the cohort rows follow one by one. */
  ghost predicate InitCompactStep(s: State, t: State) {
    && s.span.Idle? && s.chain.None? && s.marked == map[] && s.frontier == map[] && s.seen == {} && s.pending == map[]
    && t == s.(
      chain := Some(Chain(s.nextChain, Compact, Build, s.rv, None, None, None, {}, {}, {}, false, false)),
      nextChain := s.nextChain + 1, plan := None, span := Staking)
  }

  ghost predicate CompactAddStep(s: State, p: PackId, bits: set<nat>, t: State) {
    && s.span.Staking? && p !in s.marked && LivePack(s.db, p)
    && DedupMarks(s.db, s.marked[p := Marks(bits, None)])
    && t == s.(marked := s.marked[p := Marks(bits, None)])
  }

  ghost predicate CompactFlipStep(s: State, count: nat, t: State) {
    && Exhausted(s) && s.chain.value.mode.Compact?
    && var n := s.chain.value.newPack.value;
    && !Gone(s.db, n) && (forall x :: x in s.db.rows[n] ==> s.db.rows[n][x] < count)
    && t == s.(db := s.db.(packs := s.db.packs[n := PackRow(Live, count, false)]), span := SwapFlipped)
  }

  ghost predicate CompactDeadMarkStep(s: State, t: State) {
    s.span.SwapFlipped? && t == s.(db := Turn(s.db, s.marked.Keys, Dead), span := SwapDead)
  }

  ghost predicate CompactDropStep(s: State, t: State) {
    s.span.SwapDead? && t == s.(db := s.db.(rows := s.db.rows - s.marked.Keys))
  }

  ghost predicate CompactEndStep(s: State, t: State) {
    s.span.SwapDead? && s.db.rows.Keys !! s.marked.Keys && t == s.(chain := None, plan := None, span := Idle)
  }

  // ---- the wipes ----
  //
  // `wipe_build` forgets a build and keeps the chain; `wipe_all` ends a chain early.  Both
  // delete the build pack's rows, mark it dead, and only then delete the meta that names it.

  /** A live build pack whose cohort already lost a pack is the surviving copy. */
  predicate Keep(s: State) {
    && s.chain.Some? && s.chain.value.newPack.Some? && LivePack(s.db, s.chain.value.newPack.value)
    && !(s.marked != map[] && Whole(s.db, s.marked))
  }

  /** Leftover rows of dead cohort packs. */
  ghost predicate WipeRetiredStep(s: State, drop: set<PackId>, t: State) {
    && s.span.Idle? && s.chain.Some? && drop <= s.marked.Keys && (forall p :: p in drop ==> !LivePack(s.db, p))
    && t == s.(db := s.db.(rows := s.db.rows - drop))
  }

  ghost predicate WipeRowsStep(s: State, all: bool, t: State) {
    && s.span.Idle? && s.chain.Some? && s.chain.value.newPack.Some?
    && (if all then !Keep(s) else s.chain.value.phase.Build? && Whole(s.db, s.marked))
    && t == s.(db := s.db.(rows := s.db.rows[s.chain.value.newPack.value := map[]]), plan := None, span := Wiping(all))
  }

  /** `wipe_build` spares a pack that went live. */
  ghost predicate WipeDeadStep(s: State, t: State) {
    && s.span.Wiping? && s.chain.Some? && s.chain.value.newPack.Some?
    && var n := s.chain.value.newPack.value;
    && t == s.(
      db := if n in s.db.packs && (s.span.all || s.db.packs[n].state.Ingesting?) then Turn(s.db, {n}, Dead) else s.db,
      span := Wiped(s.span.all))
  }

  /** The chain no longer knows the build it wiped, so no cut of a wipe matters to it now. */
  ghost predicate WipeCursorStep(s: State, t: State) {
    && s.chain.Some?
    && (s.span == Wiped(false) || (s.span.Idle? && s.chain.value.phase.Build? && s.chain.value.pos.None?))
    && t == s.(chain := Some(s.chain.value.(newPack := None, pos := None, hollow := false)), plan := None, span := Idle)
  }

  ghost predicate WipeMetaStep(s: State, t: State) {
    && s.chain.Some?
    && (s.span == Wiped(true) || (s.span.Idle? && (s.chain.value.newPack.None? || Keep(s))))
    && t == s.(chain := None, plan := None, span := Idle)
  }

  // ---- one step ----

  // The actions in families, so that a proof about one need not look at the others.

  predicate EnvAction(a: Action) {
    || a.IngestRows? || a.Reject? || a.Reap? || a.Pin? || a.Unpin?
    || a.BumpVersion? || a.Stop? || a.Scratch?
  }

  predicate PlainAction(a: Action) {
    a.PlainPromote? || a.PlainDemote? || a.PlainLand? || a.PlainDelete?
  }

  predicate PushAction(a: Action) {
    || a.PushPending? || a.PushPromote? || a.PushDemote? || a.PushForget?
    || a.PushFeed? || a.PushLand? || a.PushDelete?
  }

  predicate WalkAction(a: Action) {
    || a.InitMark? || a.StampBarrier? || a.PlanBatch? || a.FlushBits? || a.WriteSeen?
    || a.FeedKids? || a.DropExpanded? || a.DropMisses?
  }

  predicate PageAction(a: Action) {
    || a.PageFeed? || a.PageMove? || a.PageDone? || a.DropPending? || a.DropSeen?
    || a.Handoff?
  }

  predicate BuildAction(a: Action) {
    || a.FreezeBuilt? || a.StakePack? || a.NamePack? || a.OpenPos? || a.BuildRows? || a.Claim?
    || a.FlipLive? || a.PublishSweep? || a.PublishEmpty?
  }

  predicate RetireAction(a: Action) {
    || a.RecordSwap? || a.RecordFallback? || a.BumpEpoch? || a.DeadMark? || a.DropRetired?
    || a.EndChain? || a.ResumeLive? || a.ResumeDead?
  }

  predicate WipeAction(a: Action) {
    a.WipeRetired? || a.WipeRows? || a.WipeDead? || a.WipeCursor? || a.WipeMeta?
  }

  /** Requests and the janitor. */
  ghost predicate EnvFamily(g: Content, s: State, a: Action, t: State) {
    match a
    case IngestRows(p, count, rows) => IngestRowsStep(s, p, count, rows, t) && Placed(g, p, rows)
    case Reject(p) => RejectStep(s, p, t)
    case Reap(p) => ReapStep(s, p, t)
    case Pin(n) => PinStep(s, n, t)
    case Unpin(n) => UnpinStep(s, n, t)
    case BumpVersion => BumpVersionStep(s, t)
    case Stop => StopStep(s, t)
    case Scratch => ScratchStep(s, t)
    case _ => false
  }

  /** Pushes without a barrier. */
  ghost predicate PlainFamily(g: Content, s: State, a: Action, t: State) {
    match a
    case PlainPromote(p) => PlainPromoteStep(s, p, t)
    case PlainDemote => PlainDemoteStep(s, t)
    case PlainLand(n, r) => PlainLandStep(s, n, r, t)
    case PlainDelete(n) => PlainDeleteStep(s, n, t)
    case _ => false
  }

  /** Pushes under a barrier. */
  ghost predicate PushFamily(g: Content, s: State, a: Action, t: State) {
    match a
    case PushPending(p) => PushPendingStep(s, p, t)
    case PushPromote(p) => PushPromoteStep(s, p, t)
    case PushDemote => PushDemoteStep(s, t)
    case PushForget => PushForgetStep(s, t)
    case PushFeed(n, r) => PushFeedStep(s, n, r, t)
    case PushLand => PushLandStep(s, t)
    case PushDelete(n) => PushDeleteStep(s, n, t)
    case _ => false
  }

  /** The walk. */
  ghost predicate WalkFamily(g: Content, s: State, a: Action, t: State) {
    match a
    case InitMark => InitMarkStep(g, s, t)
    case StampBarrier => StampBarrierStep(s, t)
    case PlanBatch(pl) => PlanBatchStep(s, pl, t)
    case FlushBits(ids) => FlushBitsStep(s, ids, t)
    case WriteSeen => WriteSeenStep(s, t)
    case FeedKids(kids) => FeedKidsStep(g, s, kids, t)
    case DropExpanded => DropExpandedStep(s, t)
    case DropMisses(m) => DropMissesStep(s, m, t)
    case _ => false
  }

  /** Pages and the hand-over. */
  ghost predicate PageFamily(g: Content, s: State, a: Action, t: State) {
    match a
    case PageFeed(p, c) => PageFeedStep(g, s, p, c, t)
    case PageMove => PageMoveStep(s, t)
    case PageDone => PageDoneStep(s, t)
    case DropPending => DropPendingStep(s, t)
    case DropSeen => DropSeenStep(s, t)
    case Handoff => HandoffStep(s, t)
    case _ => false
  }

  /** The build. */
  ghost predicate BuildFamily(g: Content, s: State, a: Action, t: State) {
    match a
    case FreezeBuilt => FreezeBuiltStep(s, t)
    case StakePack(n) => StakePackStep(s, n, t)
    case NamePack => NamePackStep(s, t)
    case OpenPos => OpenPosStep(s, t)
    case BuildRows(rows) => BuildRowsStep(s, rows, t) && Placed(g, s.chain.value.newPack.value, rows)
    case Claim(claims) => ClaimStep(s, claims, t)
    case FlipLive(count) => FlipLiveStep(s, count, t)
    case PublishSweep => PublishSweepStep(s, t)
    case PublishEmpty => PublishEmptyStep(s, t)
    case _ => false
  }

  /** The barrier sweep. */
  ghost predicate RetireFamily(g: Content, s: State, a: Action, t: State) {
    match a
    case RecordSwap => RecordSwapStep(s, t)
    case RecordFallback(ids) => RecordFallbackStep(s, ids, t)
    case BumpEpoch => BumpEpochStep(s, t)
    case DeadMark => DeadMarkStep(s, t)
    case DropRetired => DropRetiredStep(s, t)
    case EndChain => EndChainStep(s, t)
    case ResumeLive => ResumeLiveStep(s, t)
    case ResumeDead => ResumeDeadStep(s, t)
    case _ => false
  }

  /** The flag-off sweep and compaction. */
  ghost predicate FinishFamily(g: Content, s: State, a: Action, t: State) {
    match a
    case SweepBump => SweepBumpStep(s, t)
    case SweepDeadMark => SweepDeadMarkStep(s, t)
    case SweepDrop => SweepDropStep(s, t)
    case SweepEnd => SweepEndStep(s, t)
    case InitCompact => InitCompactStep(s, t)
    case CompactAdd(p, bits) => CompactAddStep(s, p, bits, t)
    case CompactFlip(count) => CompactFlipStep(s, count, t)
    case CompactDeadMark => CompactDeadMarkStep(s, t)
    case CompactDrop => CompactDropStep(s, t)
    case CompactEnd => CompactEndStep(s, t)
    case _ => false
  }

  /** The wipes. */
  ghost predicate WipeFamily(g: Content, s: State, a: Action, t: State) {
    match a
    case WipeRetired(drop) => WipeRetiredStep(s, drop, t)
    case WipeRows(all) => WipeRowsStep(s, all, t)
    case WipeDead => WipeDeadStep(s, t)
    case WipeCursor => WipeCursorStep(s, t)
    case WipeMeta => WipeMetaStep(s, t)
    case _ => false
  }

  ghost predicate Step(g: Content, s: State, a: Action, t: State) {
    if EnvAction(a) then EnvFamily(g, s, a, t)
    else if PlainAction(a) then PlainFamily(g, s, a, t)
    else if PushAction(a) then PushFamily(g, s, a, t)
    else if WalkAction(a) then WalkFamily(g, s, a, t)
    else if PageAction(a) then PageFamily(g, s, a, t)
    else if BuildAction(a) then BuildFamily(g, s, a, t)
    else if RetireAction(a) then RetireFamily(g, s, a, t)
    else if WipeAction(a) then WipeFamily(g, s, a, t)
    else FinishFamily(g, s, a, t)
  }

  ghost predicate StepAt(g: Content, states: seq<State>, acts: seq<Action>, i: int) {
    0 <= i < |acts| && i + 1 < |states| && Step(g, states[i], acts[i], states[i + 1])
  }

  /** A run: states and the actions between them. */
  ghost predicate Run(g: Content, states: seq<State>, acts: seq<Action>) {
    && |states| == |acts| + 1
    && forall i {:trigger StepAt(g, states, acts, i)} :: 0 <= i < |acts| ==> StepAt(g, states, acts, i)
  }
}
