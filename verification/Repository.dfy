/** The repository's tables as the garbage collector and the pushes see them.

    One `State` is a snapshot between two SQL statements: packs, object rows,
    refs and pins, the two counters (`gc_epoch`, `refs_version`), the chain that
    owns `gc.*`, and the scratch tables.  Two fields say where control stands:
    `span` is the position inside the synchronous span being executed, and `plan`
    is what a mark or drain slice holds in memory across an await. */
module Repository {

  datatype Option<+T> = None | Some(value: T)

  type Byte = bv8

  datatype Sha = Sha(hex: string)
  datatype PackId = PackId(name: string)
  datatype RefName = RefName(name: string)

  datatype Kind = Commit | Tree | Blob | Tag

  /** What the bytes say.  Objects are content-addressed, so links and kind are fixed
      functions of the sha; a pack is written once under an id of its own, so the object at
      an index is a fixed function of the pack. */
  datatype Content = Content(links: Sha -> set<Sha>, kind: Sha -> Kind, entry: (PackId, nat) -> Sha)

  ghost predicate BlobsAreLeaves(g: Content) {
    forall x :: g.kind(x).Blob? ==> g.links(x) == {}
  }

  datatype PackState = Ingesting | Live | Dead

  /** `pushed` is `push_id IS NOT NULL`: a build pack belongs to no push. */
  datatype PackRow = PackRow(state: PackState, count: nat, pushed: bool)

  datatype Ref = Ref(target: Sha, peeled: Option<Sha>)

  /** One `marked` row: a cohort pack, its mark bits and the frozen as-copied bits. */
  datatype Marks = Marks(bitmap: set<nat>, built: Option<set<nat>>)

  datatype Mode = FlagOff | Barrier | Compact
  datatype Phase = Mark | Build | Sweep

  /** The `gc.retire` record. */
  datatype Intent = Intent(ids: set<PackId>, lossy: bool, fallback: bool)

  /** The `gc.*` meta of a started chain; `pos` holds the shas the build cursor claims
      are posted.  The last five fields are history variables that no step reads: the
      shas expanded when a flag-off mark hands over (it drops `gc_seen` then), the roots
      and live shas at mark start, whether a wipe was cut where the chain goes on trusting
      the rows it took away, and whether a push was cut where a flag-off chain goes on as
      if there had been none. */
  datatype Chain = Chain(
    id: nat, mode: Mode, phase: Phase, rv: nat,
    newPack: Option<PackId>, pos: Option<set<Sha>>, retire: Option<Intent>,
    done: set<Sha>, snapRoots: set<Sha>, snapLive: set<Sha>, hollow: bool, missed: bool)

  /** A slice's batch between its lookup and its commits: the live copy found for
      each hit, the shas with no live row, and the generation popped. */
  datatype Plan = Plan(chain: nat, phase: Phase, gen: nat, hits: map<Sha, PackId>, misses: set<Sha>)

  datatype Span =
    | Idle
    | PlainPromoted(pack: PackId)
    | PlainOpen
    | PendingWritten(pack: PackId, bumped: bool)
    | Promoted(pack: PackId)
    | Demoted(pack: PackId)
    | Fed(name: RefName, ref: Ref, bumped: bool)
    | InitStarted
    | BitsFlushed(ids: set<Sha>)
    | SeenWritten(ids: set<Sha>)
    | KidsFed(ids: set<Sha>)
    | PageFed(pack: PackId, cursor: int)
    | PageMoved(pack: PackId)
    | Staked(pack: PackId)
    | Named
    | Intended(intent: Intent)
    | Bumped(intent: Intent)
    | DeadMarked(intent: Intent)
    | SweepBumped
    | SweepDead
    | Staking
    | SwapFlipped
    | SwapDead
    | Wiping(all: bool)
    | Wiped(all: bool)

  /** The `packs` and `objects` tables; a row is keyed by (pack, sha) and holds the
      entry's index in the pack. */
  datatype Store = Store(packs: map<PackId, PackRow>, rows: map<PackId, map<Sha, nat>>)

  type Cohort = map<PackId, Marks>

  datatype State = State(
    db: Store,
    refs: map<RefName, Ref>,
    pins: map<RefName, Sha>,
    epoch: nat,
    rv: nat,
    chain: Option<Chain>,
    nextChain: nat,
    marked: Cohort,
    frontier: map<Sha, nat>,
    seen: set<Sha>,
    pending: map<PackId, int>,
    plan: Option<Plan>,
    span: Span)

  // ---- copies and liveness ----

  predicate LivePack(db: Store, p: PackId) {
    p in db.packs && db.packs[p].state.Live?
  }

  predicate Copy(db: Store, x: Sha, p: PackId) {
    p in db.rows && x in db.rows[p]
  }

  predicate LiveCopy(db: Store, x: Sha, p: PackId) {
    LivePack(db, p) && Copy(db, x, p)
  }

  ghost predicate Alive(db: Store, x: Sha) {
    exists p :: LiveCopy(db, x, p)
  }

  function LiveSet(db: Store): (r: set<Sha>)
    ensures forall x :: x in r <==> Alive(db, x)
  {
    var r := set p, x | p in db.rows && x in db.rows[p] && LivePack(db, p) :: x;
    assert forall x :: x in r ==> Alive(db, x) by {
      forall x | x in r ensures Alive(db, x) {
        var p :| p in db.rows && x in db.rows[p] && LivePack(db, p);
        assert LiveCopy(db, x, p);
      }
    }
    assert forall x, p :: LiveCopy(db, x, p) ==> x in r;
    r
  }

  /** A live copy that outlives the chain: outside the cohort, or marked in it. */
  predicate SafeCopy(db: Store, m: Cohort, x: Sha, p: PackId) {
    LiveCopy(db, x, p) && (p in m ==> db.rows[p][x] in m[p].bitmap)
  }

  ghost predicate Safe(db: Store, m: Cohort, x: Sha) {
    exists p :: SafeCopy(db, m, x, p)
  }

  /** A live copy outside the cohort. */
  predicate OuterCopy(db: Store, m: Cohort, x: Sha, p: PackId) {
    LiveCopy(db, x, p) && p !in m
  }

  ghost predicate Outer(db: Store, m: Cohort, x: Sha) {
    exists p :: OuterCopy(db, m, x, p)
  }

  /** `cohort_live` on a non-empty cohort. */
  predicate Whole(db: Store, m: Cohort) {
    forall p :: p in m ==> LivePack(db, p)
  }

  // ---- the roots ----

  ghost predicate RefRoot(refs: map<RefName, Ref>, pins: map<RefName, Sha>, x: Sha) {
    || (exists n :: n in refs && refs[n].target == x)
    || (exists n :: n in refs && refs[n].peeled == Some(x))
    || (exists n :: n in pins && pins[n] == x)
  }

  /** The mark's root set: refs, peeled targets, pins and every non-blob of every
      live pack outside the cohort. */
  ghost predicate MarkRoot(g: Content, s: State, x: Sha) {
    RefRoot(s.refs, s.pins, x) || (!g.kind(x).Blob? && Outer(s.db, s.marked, x))
  }

  /** A copy in a pending pack past that row's cursor. */
  predicate PendingCopy(db: Store, pending: map<PackId, int>, x: Sha, p: PackId) {
    LiveCopy(db, x, p) && p in pending && db.rows[p][x] > pending[p]
  }

  ghost predicate PendingRoot(g: Content, db: Store, pending: map<PackId, int>, x: Sha) {
    !g.kind(x).Blob? && exists p :: PendingCopy(db, pending, x, p)
  }

  // ---- reachability through live objects ----

  ghost predicate Path(g: Content, live: set<Sha>, p: seq<Sha>) {
    && |p| > 0
    && forall i :: 0 <= i < |p| - 1 ==> p[i] in live && p[i + 1] in g.links(p[i])
  }

  /** `p` leads to `x`; each object on it but the last is live, as only a live
      object has bytes to read links from. */
  ghost predicate PathTo(g: Content, live: set<Sha>, p: seq<Sha>, x: Sha) {
    Path(g, live, p) && p[|p| - 1] == x
  }

  ghost predicate Reachable(g: Content, s: State, x: Sha) {
    exists p :: PathTo(g, LiveSet(s.db), p, x) && MarkRoot(g, s, p[0])
  }

  /** Reachable from the frontier or from pending non-blobs past their cursor. */
  ghost predicate Protected(g: Content, s: State, x: Sha) {
    exists p :: PathTo(g, LiveSet(s.db), p, x)
      && (p[0] in s.frontier || PendingRoot(g, s.db, s.pending, p[0]))
  }

  // ---- the build's input ----

  /** `COALESCE(built, bitmap)`. */
  function BuiltBits(m: Marks): set<nat> {
    if m.built.Some? then m.built.value else m.bitmap
  }

  predicate BuiltCopy(db: Store, m: Cohort, x: Sha, p: PackId) {
    p in m && Copy(db, x, p) && db.rows[p][x] in BuiltBits(m[p])
  }

  ghost predicate BuiltSha(db: Store, m: Cohort, x: Sha) {
    exists p :: BuiltCopy(db, m, x, p)
  }

  ghost predicate BuiltExactly(db: Store, m: Cohort, n: PackId) {
    n in db.rows && forall x :: x in db.rows[n] <==> BuiltSha(db, m, x)
  }

  // ---- finite sets ----

  lemma Fewer<T>(a: set<T>, b: set<T>)
    requires a <= b
    ensures |a| <= |b| && (a != b ==> |a| < |b|)
  {
    assert b == a + (b - a);
  }
}
