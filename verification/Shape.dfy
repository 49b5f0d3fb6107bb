/** The structural invariant: what every reachable state looks like, apart from
    the marking invariant. */
module Shape {
  import opened Repository
  import opened Steps

  ghost predicate StoreOk(db: Store) {
    && (forall p :: p in db.rows ==> Ordinals(db.rows[p]))
    && (forall p :: LivePack(db, p) ==> CountsCover(db, p))
  }

  ghost predicate PinsOk(refs: map<RefName, Ref>, pins: map<RefName, Sha>) {
    forall n :: n in pins ==> n in refs && refs[n].target == pins[n]
  }

  ghost predicate TablesOk(s: State) {
    && StoreOk(s.db) && PinsOk(s.refs, s.pins)
    && (s.chain.Some? ==> s.chain.value.id < s.nextChain)
    && (s.plan.Some? ==> s.plan.value.chain < s.nextChain)
  }

  /** A cohort pack is never 'ingesting', and dies only at the end of its chain. */
  ghost predicate CohortOk(db: Store, m: Cohort, c: Chain) {
    && (m == map[] ==> c.mode.Compact? && c.newPack.None?)
    && (forall p :: p in m && p in db.packs ==> !db.packs[p].state.Ingesting?)
    && (!Whole(db, m) ==>
         || c.retire.Some?
         || (c.mode.FlagOff? && c.phase.Sweep?)
         || (c.mode.Compact? && c.pos.Some?))
    && (!c.mode.Barrier? ==> Whole(db, m) || forall p :: p in m ==> !LivePack(db, p))
  }

  ghost predicate PendingOk(db: Store, m: Cohort, pending: map<PackId, int>, c: Chain) {
    && (!c.mode.Barrier? ==> pending == map[])
    && (forall p :: p in pending ==>
         && c.newPack != Some(p) && pending[p] >= -1
         && (p in db.packs ==> db.packs[p].pushed && (db.packs[p].state.Ingesting? ==> pending[p] == -1)))
  }

  ghost predicate ModeOk(m: Cohort, c: Chain) {
    && (!c.mode.Barrier? ==> c.retire.None? && forall p :: p in m ==> m[p].built.None?)
    && (!c.mode.FlagOff? ==> c.done == {})
    && (c.mode.Compact? ==> c.phase.Build?)
    && (c.phase.Mark? ==> c.newPack.None? && forall p :: p in m ==> m[p].built.None?)
    && (c.phase.Sweep? || c.newPack.Some? ==> Frozen(m, c))
    && (c.retire.Some? ==> c.phase.Sweep?)
    && (c.pos.Some? ==> c.newPack.Some?)
  }

  /** Recorded packs are all live or all dead: the dead-mark is one statement. */
  ghost predicate RetireOk(db: Store, m: Cohort, it: Intent) {
    && it.ids != {} && it.ids <= m.Keys
    && ((forall p :: p in it.ids ==> LivePack(db, p)) || (forall p :: p in it.ids ==> !LivePack(db, p)))
    && (forall p :: p in m && p !in it.ids ==> LivePack(db, p))
  }

  ghost predicate NewPackOk(db: Store, m: Cohort, c: Chain, n: PackId) {
    && n !in m && n in db.rows && (n in db.packs ==> !db.packs[n].pushed)
    && (c.pos.None? ==> !LivePack(db, n) && db.rows[n] == map[])
  }

  /** While the cohort stands, the build pack and its cursor name built shas only; a sweep
      without a build pack had nothing to copy. */
  ghost predicate BuildOk(db: Store, m: Cohort, c: Chain) {
    && (c.newPack.Some? && c.newPack.value in db.rows ==>
         forall x :: x in db.rows[c.newPack.value] ==> BuiltSha(db, m, x))
    && (forall x :: x in Claims(c) ==> BuiltSha(db, m, x))
    && (c.phase.Sweep? && c.newPack.None? ==> forall p :: p in m ==> BuiltBits(m[p]) == {})
    && (c.mode.Compact? ==> DedupMarks(db, m))
  }

  /** What the chain trusts about its build pack is true: what the cursor claims is posted,
      a live pack holds every built sha, and so does the pack of a flag-off sweep. */
  ghost predicate ClaimsOk(db: Store, m: Cohort, c: Chain, unmoved: bool) {
    && (c.newPack.Some? && c.newPack.value in db.rows ==>
         && (!Gone(db, c.newPack.value) ==> Claims(c) <= db.rows[c.newPack.value].Keys)
         && (LivePack(db, c.newPack.value) ==> forall x :: BuiltSha(db, m, x) ==> x in db.rows[c.newPack.value]))
    && (unmoved && c.phase.Sweep? ==>
         (c.newPack.Some? && LivePack(db, c.newPack.value)) || forall x :: !BuiltSha(db, m, x))
  }

  /** .. outside a wipe, and until a cut tears the chain. */
  ghost predicate TrustOk(s: State) {
    s.chain.Some? && !s.chain.value.hollow && !Wipe(s.span) && Whole(s.db, s.marked) ==>
      ClaimsOk(s.db, s.marked, s.chain.value, Unmoved(s))
  }

  ghost predicate BuiltWithin(m: Cohort) {
    forall p :: p in m ==> BuiltBits(m[p]) <= m[p].bitmap
  }

  ghost predicate ChainOk(db: Store, m: Cohort, c: Chain) {
    && CohortOk(db, m, c) && ModeOk(m, c)
    && (c.retire.Some? ==> RetireOk(db, m, c.retire.value))
    && (c.newPack.Some? ==> NewPackOk(db, m, c, c.newPack.value))
    && BuiltWithin(m)
    && (Whole(db, m) ==> BuildOk(db, m, c))
  }

  ghost predicate QueueOk(s: State, c: Chain) {
    && c.rv <= s.rv
    && PendingOk(s.db, s.marked, s.pending, c)
    && (c.mode.FlagOff? && !c.phase.Mark? ==> s.frontier == map[])
  }

  // ---- spans ----

  predicate Marked(db: Store, m: Cohort, hits: map<Sha, PackId>) {
    forall x :: x in hits && hits[x] in m && Copy(db, x, hits[x]) ==> db.rows[hits[x]][x] in m[hits[x]].bitmap
  }

  predicate Flushed(s: State, ids: set<Sha>) {
    && Fenced(s) && Walking(s.chain.value)
    && ids <= (if s.chain.value.mode.Barrier? then s.plan.value.hits.Keys
      else s.plan.value.hits.Keys + s.plan.value.misses)
    && Marked(s.db, s.marked, s.plan.value.hits)
  }

  /** The recorded ids are exactly those the check span found retirable. */
  ghost predicate Valid(s: State, it: Intent) {
    if it.fallback then
      !it.lossy && forall p :: p in it.ids <==> FallbackPack(s.db, s.marked, p)
    else
      && it.ids == SwapIds(s.marked) && it.lossy == Lossy(s.db, s.marked, it.ids)
      && s.frontier == map[] && s.pending == map[]
  }

  predicate In(s: State, mode: Mode, phase: Phase) {
    s.chain.Some? && s.chain.value.mode == mode && s.chain.value.phase == phase
  }

  predicate CohortDead(s: State) {
    forall p :: p in s.marked ==> !LivePack(s.db, p)
  }

  /** A push has taken pack p live; nothing else knows of it yet. */
  ghost predicate Taken(s: State, p: PackId) {
    && LivePack(s.db, p) && s.db.packs[p].pushed && (s.chain.Some? ==> p !in s.marked)
    && (Fenced(s) && Walking(s.chain.value) ==> forall x :: x in s.plan.value.hits ==> s.plan.value.hits[x] != p)
  }

  ghost predicate StakedOk(s: State, n: PackId) {
    && s.chain.Some? && s.chain.value.phase.Build? && s.chain.value.pos.None?
    && s.marked != map[] && Whole(s.db, s.marked) && Frozen(s.marked, s.chain.value)
    && n !in s.marked && n !in s.pending && n in s.db.packs && !s.db.packs[n].pushed && !LivePack(s.db, n)
    && n in s.db.rows && s.db.rows[n] == map[]
  }

  ghost predicate Retiring(s: State, it: Intent) {
    && BarrierOn(s) && s.chain.value.retire == Some(it) && Whole(s.db, s.marked)
    && BuildPackLive(s.db, s.chain.value) && Valid(s, it)
  }

  ghost predicate Emptied(s: State) {
    && s.chain.Some? && s.chain.value.newPack.Some? && s.plan.None?
    && s.chain.value.newPack.value in s.db.rows && s.db.rows[s.chain.value.newPack.value] == map[]
  }

  ghost predicate SpanOk(g: Content, s: State) {
    match s.span
    case Idle => true
    case PlainPromoted(p) => !BarrierOn(s) && Taken(s, p)
    case PlainOpen => !BarrierOn(s)
    case PendingWritten(p, _) => BarrierOn(s) && p in s.pending
    case Promoted(p) => BarrierOn(s) && p in s.pending && s.pending[p] == -1 && Taken(s, p)
    case Demoted(p) => BarrierOn(s) && !LivePack(s.db, p)
    case InitStarted =>
      && In(s, FlagOff, Mark) && s.chain.value.done == {} && s.seen == {} && s.plan.None?
      && s.rv == s.chain.value.rv && !s.chain.value.missed
    case Fed(n, r, _) => BarrierOn(s) && n !in s.pins && Feeds(r) <= s.seen + s.frontier.Keys
    case BitsFlushed(ids) => Flushed(s, ids)
    case SeenWritten(ids) => Flushed(s, ids) && ids <= s.seen
    case KidsFed(ids) => Flushed(s, ids) && ids <= s.seen && Kids(g, Read(s, ids)) <= s.seen + s.frontier.Keys
    case PageFed(p, c) =>
      && BarrierOn(s) && p in s.pending && LivePack(s.db, p) && s.pending[p] < c
      && Page(g, s.db, p, s.pending[p], c) <= s.seen + s.frontier.Keys
    case PageMoved(p) => BarrierOn(s) && p in s.pending && LivePack(s.db, p)
    case Staked(n) => StakedOk(s, n)
    case Named => s.chain.Some? && s.chain.value.phase.Build? && s.chain.value.newPack.Some?
    case Intended(it) => Retiring(s, it)
    case Bumped(it) => Retiring(s, it) && it.lossy
    case DeadMarked(it) =>
      BarrierOn(s) && s.chain.value.retire == Some(it) && forall p :: p in it.ids ==> !LivePack(s.db, p)
    case SweepBumped => In(s, FlagOff, Sweep) && s.rv == s.chain.value.rv
    case SweepDead => In(s, FlagOff, Sweep) && CohortDead(s)
    case Staking => In(s, Compact, Build) && s.chain.value.newPack.None? && Whole(s.db, s.marked)
    case SwapFlipped =>
      && In(s, Compact, Build) && Whole(s.db, s.marked) && s.chain.value.newPack.Some?
      && LivePack(s.db, s.chain.value.newPack.value)
    case SwapDead => In(s, Compact, Build) && s.chain.value.newPack.Some? && CohortDead(s)
    case Wiping(all) => Emptied(s) && (!all ==> s.chain.value.phase.Build? && Whole(s.db, s.marked))
    case Wiped(all) =>
      && Emptied(s)
      && (if all then Gone(s.db, s.chain.value.newPack.value) else s.chain.value.phase.Build? && Whole(s.db, s.marked))
  }

  /** The state with the promotion under way undone. */
  function Undone(s: State): State {
    if s.span.Promoted? || s.span.PlainPromoted? then s.(db := Turn(s.db, {s.span.pack}, Ingesting)) else s
  }

  /** What a slice remembers is still true when it commits. */
  ghost predicate PlanOk(s: State) {
    Fenced(s) && Walking(s.chain.value) ==>
      && (forall x :: x in s.plan.value.hits ==> x in s.frontier && LiveCopy(s.db, x, s.plan.value.hits[x]))
      && (Unmoved(s) && !s.chain.value.missed && !s.span.PlainOpen? ==>
           forall x :: x in s.plan.value.misses ==> !Alive(Undone(s).db, x))
  }

  ghost predicate ShapeOk(g: Content, s: State) {
    && TablesOk(s) && SpanOk(g, s) && PlanOk(s) && TrustOk(s)
    && (s.chain.Some? ==> ChainOk(s.db, s.marked, s.chain.value) && QueueOk(s, s.chain.value))
  }

  // ---- frames ----

  /** The two stores agree on the packs of `ids`; a row may only leave `packs` if
      its pack was not live. */
  predicate SameView(a: Store, b: Store, ids: set<PackId>) {
    forall p :: p in ids ==>
      && (LivePack(a, p) <==> LivePack(b, p))
      && (p in b.packs ==> p in a.packs && a.packs[p] == b.packs[p])
      && (p in a.rows <==> p in b.rows)
      && (p in a.rows ==> a.rows[p] == b.rows[p])
  }

  /** The packs a chain depends on. */
  function Own(m: Cohort, c: Chain): set<PackId> {
    m.Keys + if c.newPack.Some? then {c.newPack.value} else {}
  }

  lemma BuiltFrame(a: Store, b: Store, m: Cohort)
    requires SameView(a, b, m.Keys)
    ensures forall x :: BuiltSha(a, m, x) <==> BuiltSha(b, m, x)
  {
    assert forall x, p :: BuiltCopy(a, m, x, p) ==> BuiltCopy(b, m, x, p);
    assert forall x, p :: BuiltCopy(b, m, x, p) ==> BuiltCopy(a, m, x, p);
  }

  lemma DedupFrame(a: Store, b: Store, m: Cohort)
    requires SameView(a, b, m.Keys) && DedupMarks(a, m)
    ensures DedupMarks(b, m)
  {
    assert forall p, x :: p in m ==> (Copy(a, x, p) <==> Copy(b, x, p));
  }

  lemma ChainFrame(a: Store, b: Store, m: Cohort, c: Chain)
    requires ChainOk(a, m, c) && SameView(a, b, Own(m, c))
    ensures ChainOk(b, m, c)
  {
    hide DedupMarks, BuiltSha, BuiltCopy;
    assert SameView(a, b, m.Keys);
    BuiltFrame(a, b, m);
    if c.mode.Compact? && Whole(b, m) { DedupFrame(a, b, m); }
    if c.newPack.Some? { assert c.newPack.value in Own(m, c); }
  }

  lemma ClaimsFrame(a: Store, b: Store, m: Cohort, c: Chain, unmoved: bool)
    requires ClaimsOk(a, m, c, unmoved) && SameView(a, b, Own(m, c))
    ensures ClaimsOk(b, m, c, unmoved)
  {
    hide BuiltSha, BuiltCopy;
    assert SameView(a, b, m.Keys);
    BuiltFrame(a, b, m);
    if c.newPack.Some? { assert c.newPack.value in Own(m, c); }
  }

  /** A change to packs the chain does not depend on. */
  lemma OtherPacks(s: State, t: State)
    requires s.chain.Some? && t.chain == s.chain && t.marked == s.marked && t.rv == s.rv && !Wipe(s.span)
    requires !Wipe(t.span)
    requires ChainOk(s.db, s.marked, s.chain.value) && TrustOk(s)
    requires SameView(s.db, t.db, Own(s.marked, s.chain.value))
    ensures ChainOk(t.db, t.marked, t.chain.value) && TrustOk(t)
  {
    hide ChainOk, ClaimsOk;
    ChainFrame(s.db, t.db, s.marked, s.chain.value);
    assert Whole(t.db, t.marked) ==> Whole(s.db, s.marked) by {
      assert forall p :: p in s.marked ==> p in Own(s.marked, s.chain.value);
    }
    if !s.chain.value.hollow && Whole(t.db, t.marked) { ClaimsFrame(s.db, t.db, s.marked, s.chain.value, Unmoved(s)); }
  }

  lemma TurnStore(db: Store, ids: set<PackId>, st: PackState)
    requires StoreOk(db) && (st.Live? ==> forall p :: p in ids ==> CountsCover(db, p))
    ensures StoreOk(Turn(db, ids, st))
  {
    var b := Turn(db, ids, st);
    forall p | LivePack(b, p) ensures CountsCover(b, p) { assert p in ids || LivePack(db, p); }
  }

  lemma DropStore(db: Store, ids: set<PackId>)
    requires StoreOk(db)
    ensures StoreOk(db.(rows := db.rows - ids))
  {
    var b := db.(rows := db.rows - ids);
    forall p | LivePack(b, p) ensures CountsCover(b, p) { assert LivePack(db, p); }
  }

  /** Cohort rows with the same frozen bits feed the same build. */
  lemma BuiltSame(db: Store, m: Cohort, k: Cohort)
    requires m.Keys == k.Keys && forall p :: p in m ==> BuiltBits(m[p]) == BuiltBits(k[p])
    ensures forall x :: BuiltSha(db, m, x) <==> BuiltSha(db, k, x)
  {
    assert forall x, p :: BuiltCopy(db, m, x, p) ==> BuiltCopy(db, k, x, p);
    assert forall x, p :: BuiltCopy(db, k, x, p) ==> BuiltCopy(db, m, x, p);
  }

  /** A step of the build touches no cohort pack. */
  lemma BuildFrame(a: Store, b: Store, m: Cohort, c: Chain, d: Chain)
    requires ChainOk(a, m, c) && SameView(a, b, m.Keys) && (d.newPack.Some? && c.newPack.None? ==> m != map[])
    requires d == c.(newPack := d.newPack, pos := d.pos) && (d.pos.Some? ==> d.newPack.Some?)
    requires c.phase.Mark? ==> d.newPack.None?
    requires c.phase.Sweep? ==> (d.newPack.Some? <==> c.newPack.Some?)
    requires !Whole(a, m) ==> d.newPack == c.newPack && (c.pos.Some? ==> d.pos.Some?)
    requires d.newPack.Some? ==> Frozen(m, d) && NewPackOk(b, m, d, d.newPack.value)
    requires d.newPack.Some? && Whole(a, m) ==> forall x :: x in b.rows[d.newPack.value] ==> BuiltSha(a, m, x)
    requires Whole(a, m) ==> forall x :: x in Claims(d) ==> BuiltSha(a, m, x)
    ensures ChainOk(b, m, d)
  {
    hide DedupMarks, BuiltSha, BuiltCopy, NewPackOk;
    BuiltFrame(a, b, m);
    if c.mode.Compact? && Whole(a, m) { DedupFrame(a, b, m); }
  }

  /** Live packs stay live with the same rows. */
  ghost predicate LiveKept(a: Store, b: Store) {
    forall p :: LivePack(a, p) ==>
      && LivePack(b, p) && (p in a.rows <==> p in b.rows) && (p in a.rows ==> a.rows[p] == b.rows[p])
  }

  lemma LiveKeptAlive(a: Store, b: Store)
    requires LiveKept(a, b)
    ensures forall x, p :: LiveCopy(a, x, p) ==> LiveCopy(b, x, p)
    ensures forall x :: Alive(a, x) ==> Alive(b, x)
  {
  }

  /** A plan's hits stay live, its misses stay missing. */
  lemma PlanFrame(s: State, t: State)
    requires PlanOk(s) && t == s.(db := t.db, chain := t.chain, span := t.span) && SameChain(s, t)
    requires LiveKept(s.db, t.db) && LiveKept(t.db, s.db) && Undone(s) == s && Undone(t) == t && !s.span.PlainOpen?
    ensures PlanOk(t)
  {
    LiveKeptAlive(s.db, t.db);
    LiveKeptAlive(t.db, s.db);
  }

  /** A chain record whose build pack or cursor may have changed. */
  predicate SameChain(s: State, t: State) {
    && (s.chain.None? ==> t.chain.None?)
    && (s.chain.Some? ==>
         && t.chain.Some?
         && t.chain.value == s.chain.value.(
              newPack := t.chain.value.newPack, pos := t.chain.value.pos, hollow := t.chain.value.hollow))
  }
}
