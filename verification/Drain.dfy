/** The sweep's drain loop: pages and walk steps until the frontier and the pending packs
    are empty, with pushes landing at every await. It ends under every schedule in which
    finitely many pushes are cut between a protection and its `refs_version` bump. */
module Drain {
  import opened Repository
  import opened Steps
  import opened Traces

  /** What pushes do during one await: a run of their own. */
  datatype Burst = Burst(states: seq<State>, acts: seq<Action>)

  /** Everything the loop does not decide: pushes at the n-th await, the awaits at which one
      may be cut early, the row a lookup returns for an object, which rows of the lowest
      generation a pop takes, which hits are committed before the budget runs out, and when
      that is. */
  datatype World = World(
    burst: (nat, State) -> Burst,
    cuts: set<nat>,
    row: (Store, Sha) -> PackId,
    pop: (nat, set<Sha>) -> set<Sha>,
    done: (nat, set<Sha>) -> set<Sha>,
    spent: nat -> bool)

  predicate Arrival(a: Action) {
    || a.IngestRows? || a.Reject? || a.Reap? || a.Pin? || a.Unpin? || a.BumpVersion? || a.Stop?
    || a.PushPending? || a.PushPromote? || a.PushDemote? || a.PushForget? || a.PushFeed? || a.PushLand? || a.PushDelete?
  }

  /** A run of pushes and janitor steps from one idle state to another; a push that dies
      does not take the sweep's slice with it. */
  ghost predicate Pushes(g: Content, s: State, b: Burst) {
    && Run(g, b.states, b.acts) && b.states[0] == s && b.states[|b.states| - 1].span.Idle?
    && forall i :: 0 <= i < |b.acts| ==>
         Arrival(b.acts[i]) && (b.acts[i].Stop? ==> b.states[i + 1].plan == b.states[i].plan)
  }

  /** A push dies after it wrote a protection and before the bump. */
  predicate Early(s: State, a: Action) {
    a.Stop? && (s.span.PendingWritten? || s.span.Fed?) && !s.span.bumped
  }

  ghost predicate Uncut(b: Burst) {
    |b.states| == |b.acts| + 1 && forall i :: 0 <= i < |b.acts| ==> !Early(b.states[i], b.acts[i])
  }

  ghost predicate SameLive(db: Store, db': Store) {
    && (forall p :: LivePack(db, p) <==> LivePack(db', p))
    && (forall p :: LivePack(db, p) ==>
         (p in db.rows <==> p in db'.rows) && (p in db.rows ==> db.rows[p] == db'.rows[p]))
  }

  ghost predicate WorldOk(g: Content, w: World) {
    && (forall n: nat, s: State :: s.span.Idle? && BarrierOn(s) ==>
         Pushes(g, s, w.burst(n, s)) && (n !in w.cuts ==> Uncut(w.burst(n, s))))
    && (forall db: Store, x: Sha :: Alive(db, x) ==> LiveCopy(db, x, w.row(db, x)))
    && (forall n: nat, xs: set<Sha> :: xs != {} ==> w.pop(n, xs) <= xs && w.pop(n, xs) != {})
    && (forall n: nat, xs: set<Sha> :: xs != {} ==> w.done(n, xs) <= xs && w.done(n, xs) != {})
  }

  // ---- what pushes leave alone -------------------------------------------------------

  /** Since s only pushes ran: the chain's own tables stand, and what a bump allows came
      after one. */
  ghost predicate Quiet(s: State, u: State) {
    && u.chain == s.chain && u.marked == s.marked && u.seen == s.seen && u.plan == s.plan && u.rv >= s.rv
    && PushSpan(u.span) && !Plain(u.span)
    && (u.span.Promoted? || u.span.Demoted? || ((u.span.PendingWritten? || u.span.Fed?) && u.span.bumped) ==>
      u.rv > s.rv)
  }

  /** .. and nothing but a protection not yet bumped for is new. */
  ghost predicate Still(s: State, u: State) {
    && SameLive(s.db, u.db)
    && (u.span.PendingWritten? || u.pending == s.pending) && (u.span.Fed? || u.frontier == s.frontier)
  }

  /** Packs that are not live may come and go. */
  lemma StoreQuiet(g: Content, s: State, u: State, a: Action, v: State)
    requires Quiet(s, u) && EnvFamily(g, u, a, v) && (a.IngestRows? || a.Reject? || a.Reap?)
    ensures Quiet(s, v) && v.rv == u.rv && (Still(s, u) ==> Still(s, v))
  {
    hide Ordinals;
  }

  lemma TokenQuiet(g: Content, s: State, u: State, a: Action, v: State)
    requires BarrierOn(s) && Quiet(s, u) && EnvFamily(g, u, a, v) && (a.Stop? ==> v.plan == u.plan)
    requires a.Pin? || a.Unpin? || a.BumpVersion? || a.Stop?
    ensures Quiet(s, v) && v.rv >= u.rv
    ensures u.rv == s.rv && Still(s, u) && !Early(u, a) && v.rv == s.rv ==> Still(s, v)
  {
    hide Whole, Trusted, SameLive;
  }

  lemma EnvQuiet(g: Content, s: State, u: State, a: Action, v: State)
    requires BarrierOn(s) && Quiet(s, u) && EnvFamily(g, u, a, v) && !a.Scratch? && (a.Stop? ==> v.plan == u.plan)
    ensures Quiet(s, v) && v.rv >= u.rv
    ensures u.rv == s.rv && Still(s, u) && !Early(u, a) && v.rv == s.rv ==> Still(s, v)
  {
    hide Quiet, Still, IngestRowsStep, RejectStep, ReapStep, PinStep, UnpinStep, BumpVersionStep, StopStep;
    if a.IngestRows? || a.Reject? || a.Reap? { StoreQuiet(g, s, u, a, v); } else { TokenQuiet(g, s, u, a, v); }
  }

  lemma PushQuiet(g: Content, s: State, u: State, a: Action, v: State)
    requires BarrierOn(s) && Quiet(s, u) && PushFamily(g, u, a, v)
    ensures Quiet(s, v) && v.rv == u.rv
    ensures u.rv == s.rv && Still(s, u) && v.rv == s.rv ==> Still(s, v)
  {
    hide Alive, Upsert, Turn;
  }

  lemma ArrivalQuiet(g: Content, s: State, u: State, a: Action, v: State)
    requires BarrierOn(s) && Quiet(s, u) && Step(g, u, a, v) && Arrival(a) && (a.Stop? ==> v.plan == u.plan)
    ensures Quiet(s, v) && v.rv >= u.rv
    ensures u.rv == s.rv && Still(s, u) && !Early(u, a) && v.rv == s.rv ==> Still(s, v)
  {
    hide Quiet, Still, EnvFamily, PushFamily;
    if EnvAction(a) { EnvQuiet(g, s, u, a, v); } else { PushQuiet(g, s, u, a, v); }
  }

  lemma {:induction false} BurstQuiet(g: Content, s: State, b: Burst, i: nat)
    requires BarrierOn(s) && s.span.Idle? && Pushes(g, s, b) && i < |b.states|
    ensures Quiet(s, b.states[i]) && (Uncut(b) && b.states[i].rv == s.rv ==> Still(s, b.states[i]))
  {
    if i > 0 {
      BurstQuiet(g, s, b, i - 1);
      BurstStep(g, s, b, i - 1);
    }
  }

  lemma BurstStep(g: Content, s: State, b: Burst, i: nat)
    requires BarrierOn(s) && Pushes(g, s, b) && i < |b.acts| && Quiet(s, b.states[i])
    requires Uncut(b) && b.states[i].rv == s.rv ==> Still(s, b.states[i])
    ensures Quiet(s, b.states[i + 1]) && (Uncut(b) && b.states[i + 1].rv == s.rv ==> Still(s, b.states[i + 1]))
  {
    hide Step, Still;
    assert StepAt(g, b.states, b.acts, i);
    ArrivalQuiet(g, s, b.states[i], b.acts[i], b.states[i + 1]);
  }

  lemma LeadsBurst(g: Content, s: State, t: State, b: Burst)
    requires Leads(g, s, t) && Run(g, b.states, b.acts) && b.states[0] == t
    ensures Leads(g, s, b.states[|b.states| - 1])
  {
    hide Step;
    var states, acts :| RunBetween(g, s, t, states, acts);
    var states', acts' := states + b.states[1..], acts + b.acts;
    forall i | 0 <= i < |acts'| ensures StepAt(g, states', acts', i) {
      if i < |acts| {
        assert StepAt(g, states, acts, i);
      } else {
        assert StepAt(g, b.states, b.acts, i - |acts|);
      }
    }
    assert RunBetween(g, s, b.states[|b.states| - 1], states', acts');
  }

  // ---- measures ---------------------------------------------------------------------

  /** Live objects not expanded and out of the frontier. */
  ghost function Unseen(s: State): set<Sha> {
    LiveSet(s.db) - (s.seen - s.frontier.Keys)
  }

  ghost function Top(rows: map<Sha, nat>): (t: int)
    ensures t >= -1 && (forall x :: x in rows ==> rows[x] <= t) && (t >= 0 ==> exists x :: x in rows && rows[x] == t)
  {
    if rows == map[] then -1 else
      var x :| x in rows;
      var rest := rows - {x};
      var t := Top(rest);
      assert forall y :: y in rows ==> y == x || (y in rest && rest[y] == rows[y]);
      if rows[x] > t then rows[x] else
        assert exists y :: y in rows && rows[y] == t by { var y :| y in rest && rest[y] == t; }
        t
  }

  ghost function TopOf(db: Store, p: PackId): int {
    if p in db.rows then Top(db.rows[p]) else -1
  }

  function Between(a: int, b: int): (r: set<int>)
    ensures forall i :: i in r <==> a < i <= b
    decreases b - a
  {
    if a >= b then {} else Between(a, b - 1) + {b}
  }

  /** The positions of pending packs not paged yet. */
  ghost function Slots(db: Store, pending: map<PackId, int>): set<(PackId, int)> {
    set p, i | p in pending && i in Between(pending[p], TopOf(db, p)) :: (p, i)
  }

  // ---- one iteration ----------------------------------------------------------------

  /** A barrier chain in its sweep, between spans, with no retirement recorded. */
  predicate Drainable(s: State) {
    Sweeping(s) && s.chain.value.retire.None?
  }

  /** Nothing but the drain's own tables moved. */
  ghost predicate SameRest(s: State, t: State) {
    t == s.(marked := t.marked, frontier := t.frontier, seen := t.seen, pending := t.pending, plan := t.plan)
  }

  /** A pending row whose pack is gone or not live protects nothing. */
  method DropDead(g: Content, s: State, ghost s0: State) returns (t: State)
    requires Leads(g, s0, s) && Drainable(s)
    ensures Leads(g, s0, t) && Drainable(t)
    ensures t == s.(pending := map p | p in s.pending && LivePack(s.db, p) :: s.pending[p])
  {
    hide Leads;
    t := s.(pending := map p | p in s.pending && LivePack(s.db, p) :: s.pending[p]);
    assert DropPendingStep(s, t);
    LeadsStep(g, s0, s, DropPending, t);
  }

  predicate NonBlobAt(g: Content, objects: map<Sha, nat>, i: int) {
    exists x :: x in objects && objects[x] == i && !g.kind(x).Blob?
  }

  /** The non-blob positions after `from`, up to `to`. */
  ghost function NonBlobs(g: Content, objects: map<Sha, nat>, from: int, to: int): set<int> {
    set i | from < i <= to && NonBlobAt(g, objects, i)
  }

  lemma NonBlobsNext(g: Content, objects: map<Sha, nat>, from: int, to: int)
    requires from < to
    ensures |NonBlobs(g, objects, from, to)| ==
      |NonBlobs(g, objects, from, to - 1)| + if NonBlobAt(g, objects, to) then 1 else 0
  {
    assert NonBlobs(g, objects, from, to) ==
      NonBlobs(g, objects, from, to - 1) + if NonBlobAt(g, objects, to) then {to} else {};
  }

  /** The page's end: the index of the `rows`-th non-blob after the cursor, or the end of the
      window when it holds fewer. */
  method PageEnd(g: Content, objects: map<Sha, nat>, cursor: int, window: nat, rows: nat) returns (end: int, full: bool)
    requires window > 0 && rows > 0
    ensures cursor < end <= cursor + window
    ensures full ==> NonBlobAt(g, objects, end) && |NonBlobs(g, objects, cursor, end)| == rows
    ensures !full ==> end == cursor + window && |NonBlobs(g, objects, cursor, end)| < rows
  {
    var n := 0;
    end := cursor + 1;
    assert NonBlobs(g, objects, cursor, cursor) == {};
    while end <= cursor + window
      invariant cursor < end <= cursor + window + 1
      invariant n == |NonBlobs(g, objects, cursor, end - 1)| < rows
      decreases cursor + window - end
    {
      NonBlobsNext(g, objects, cursor, end);
      if NonBlobAt(g, objects, end) {
        n := n + 1;
        if n == rows { return end, true; }
      }
      end := end + 1;
    }
    return cursor + window, false;
  }

  // One lemma per write, so that a proof about several sees only their own definitions.

  lemma PageFeedLeads(g: Content, s0: State, s: State, p: PackId, cursor: int, t: State)
    requires Leads(g, s0, s) && PageFeedStep(g, s, p, cursor, t)
    ensures Leads(g, s0, t)
  {
    hide Leads, PageFeedStep;
    LeadsStep(g, s0, s, PageFeed(p, cursor), t);
  }

  lemma PageMoveLeads(g: Content, s0: State, s: State, t: State)
    requires Leads(g, s0, s) && PageMoveStep(s, t)
    ensures Leads(g, s0, t)
  {
    hide Leads, PageMoveStep;
    LeadsStep(g, s0, s, PageMove, t);
  }

  lemma PageDoneLeads(g: Content, s0: State, s: State, t: State)
    requires Leads(g, s0, s) && PageDoneStep(s, t)
    ensures Leads(g, s0, t)
  {
    hide Leads, PageDoneStep;
    LeadsStep(g, s0, s, PageDone, t);
  }

  lemma StopLeads(g: Content, s0: State, s: State, t: State)
    requires Leads(g, s0, s) && StopStep(s, t)
    ensures Leads(g, s0, t)
  {
    hide Leads, StopStep;
    LeadsStep(g, s0, s, Stop, t);
  }

  function ObjectsOf(db: Store, p: PackId): map<Sha, nat> {
    if p in db.rows then db.rows[p] else map[]
  }

  /** The pending rows after a page: the cursor moved, or the row gone. */
  function Paged(pending: map<PackId, int>, p: PackId, end: int, last: bool): map<PackId, int> {
    if last then pending - {p} else pending[p := end]
  }

  lemma UpsertKeys(f: map<Sha, nat>, feed: set<Sha>, seen: set<Sha>, gen: nat)
    ensures f.Keys <= Upsert(f, feed, seen, gen).Keys
    ensures Upsert(f, feed, seen, gen).Keys !! (seen - f.Keys)
  {
  }

  /** A page's first two writes: its non-blobs enter the frontier, the cursor advances. */
  method PageWrites(g: Content, s: State, p: PackId, end: int, ghost s0: State) returns (t: State)
    requires Leads(g, s0, s) && Drainable(s) && p in s.pending && LivePack(s.db, p) && s.pending[p] < end
    ensures Leads(g, s0, t) && t.span == PageMoved(p)
    ensures t == s.(frontier := t.frontier, pending := s.pending[p := end], span := t.span)
    ensures s.frontier.Keys <= t.frontier.Keys && t.frontier.Keys !! (s.seen - s.frontier.Keys)
  {
    hide Leads, Upsert, Page;
    var feed := Page(g, s.db, p, s.pending[p], end);
    UpsertKeys(s.frontier, feed, s.seen, 1);
    var fed := s.(frontier := Upsert(s.frontier, feed, s.seen, 1), span := PageFed(p, end));
    PageFeedLeads(g, s0, s, p, end, fed);
    t := fed.(pending := fed.pending[p := end], span := PageMoved(p));
    PageMoveLeads(g, s0, fed, t);
  }

  lemma PageLeft(s: State, t: State)
    requires s.span.PageMoved? && t == s.(span := Idle, plan := None)
    ensures StopStep(s, t)
  {
    hide Whole, Trusted;
  }

  /** One page of one pending pack: its non-blobs enter the frontier, the cursor advances, the
      row goes once a short page has covered the pack. */
  method PageOnce(g: Content, s: State, p: PackId, window: nat, rows: nat, ghost s0: State)
    returns (t: State, end: int, last: bool)
    requires Leads(g, s0, s) && Drainable(s) && p in s.pending && LivePack(s.db, p) && window > 0 && rows > 0
    ensures Leads(g, s0, t) && Drainable(t) && SameRest(s, t) && t.seen == s.seen
    ensures t.pending == Paged(s.pending, p, end, last) && s.pending[p] < end && (!last ==> end <= TopOf(s.db, p))
    ensures s.frontier.Keys <= t.frontier.Keys && t.frontier.Keys !! (s.seen - s.frontier.Keys)
  {
    hide Leads, NonBlobs, StopStep;
    var objects, cursor, full := ObjectsOf(s.db, p), s.pending[p], false;
    end, full := PageEnd(g, objects, cursor, window, rows);
    last := !full && forall x :: x in objects ==> objects[x] <= end;
    var moved := PageWrites(g, s, p, end, s0);
    if last {
      t := moved.(pending := moved.pending - {p}, span := Idle);
      PageDoneLeads(g, s0, moved, t);
      assert moved.pending - {p} == s.pending - {p};
    } else {
      t := moved.(span := Idle, plan := None);
      PageLeft(moved, t);
      StopLeads(g, s0, moved, t);
    }
  }

  lemma Apart<T>(a: set<T>, b: set<T>)
    requires a !! b
    ensures a - b == a
  {
  }

  /** A page shrinks the positions left, or drops a row. */
  lemma PageShrinks(db: Store, pending: map<PackId, int>, p: PackId, end: int, last: bool)
    requires p in pending && pending[p] < end && (!last ==> end <= TopOf(db, p))
    ensures |Slots(db, Paged(pending, p, end, last))| <= |Slots(db, pending)|
    ensures |Slots(db, Paged(pending, p, end, last))| < |Slots(db, pending)|
      || |Paged(pending, p, end, last)| < |pending|
  {
    var pending' := Paged(pending, p, end, last);
    var a, b := Slots(db, pending'), Slots(db, pending);
    assert a <= b;
    Fewer(a, b);
    if last {
      assert pending'.Keys == pending.Keys - {p};
    } else {
      assert (p, end) in b && (p, end) !in a;
    }
  }

  lemma PlanBatchLeads(g: Content, s0: State, s: State, pl: Plan, t: State)
    requires Leads(g, s0, s) && PlanBatchStep(s, pl, t)
    ensures Leads(g, s0, t)
  {
    hide Leads, PlanBatchStep;
    LeadsStep(g, s0, s, PlanBatch(pl), t);
  }

  lemma FlushBitsLeads(g: Content, s0: State, s: State, ids: set<Sha>, t: State)
    requires Leads(g, s0, s) && FlushBitsStep(s, ids, t)
    ensures Leads(g, s0, t)
  {
    hide Leads, FlushBitsStep;
    LeadsStep(g, s0, s, FlushBits(ids), t);
  }

  lemma WriteSeenLeads(g: Content, s0: State, s: State, t: State)
    requires Leads(g, s0, s) && WriteSeenStep(s, t)
    ensures Leads(g, s0, t)
  {
    hide Leads, WriteSeenStep;
    LeadsStep(g, s0, s, WriteSeen, t);
  }

  lemma FeedKidsLeads(g: Content, s0: State, s: State, kids: set<Sha>, t: State)
    requires Leads(g, s0, s) && FeedKidsStep(g, s, kids, t)
    ensures Leads(g, s0, t)
  {
    hide Leads, FeedKidsStep;
    LeadsStep(g, s0, s, FeedKids(kids), t);
  }

  lemma DropExpandedLeads(g: Content, s0: State, s: State, t: State)
    requires Leads(g, s0, s) && DropExpandedStep(s, t)
    ensures Leads(g, s0, t)
  {
    hide Leads, DropExpandedStep;
    LeadsStep(g, s0, s, DropExpanded, t);
  }

  lemma DropMissesLeads(g: Content, s0: State, s: State, misses: set<Sha>, t: State)
    requires Leads(g, s0, s) && DropMissesStep(s, misses, t)
    ensures Leads(g, s0, t)
  {
    hide Leads, DropMissesStep;
    LeadsStep(g, s0, s, DropMisses(misses), t);
  }

  /** The rows of the lowest generation. */
  function Lowest(f: map<Sha, nat>): set<Sha> {
    set x | x in f && forall y :: y in f ==> f[x] <= f[y]
  }

  lemma {:induction false} SomeLowest(f: map<Sha, nat>)
    requires f != map[]
    ensures Lowest(f) != {}
  {
    var x :| x in f;
    var rest := f - {x};
    if rest == map[] {
      assert forall y :: y in f && y != x ==> y in rest;
      assert x in Lowest(f);
    } else {
      SomeLowest(rest);
      var l :| l in Lowest(rest);
      assert forall y :: y in f ==> y == x || y in rest;
      assert (if f[x] <= f[l] then x else l) in Lowest(f);
    }
  }

  /** A batch planned from these tables: hits are live, misses are not, all of one lowest
      generation. */
  ghost predicate Planned(s: State, hits: set<Sha>, misses: set<Sha>) {
    && Fenced(s) && s.plan.value.hits.Keys == hits && s.plan.value.misses == misses
    && hits <= LiveSet(s.db) && misses !! LiveSet(s.db) && hits + misses <= s.frontier.Keys && hits + misses != {}
  }

  /** A pop of lowest rows, each looked up. */
  method Pick(g: Content, w: World, n: nat, s: State) returns (found: map<Sha, PackId>, misses: set<Sha>)
    requires WorldOk(g, w) && s.frontier != map[]
    ensures found.Keys + misses <= Lowest(s.frontier) && found.Keys + misses != {}
    ensures found.Keys <= LiveSet(s.db) && misses !! LiveSet(s.db)
    ensures forall x :: x in found ==> LiveCopy(s.db, x, found[x])
  {
    hide Pushes;
    SomeLowest(s.frontier);
    var batch, live := w.pop(n, Lowest(s.frontier)), LiveSet(s.db);
    found, misses := map y | y in batch * live :: w.row(s.db, y), batch - live;
    assert found.Keys == batch * live;
    assert found.Keys + misses == batch;
  }

  method PlanOnce(g: Content, w: World, n: nat, s: State, ghost s0: State)
    returns (t: State, hits: set<Sha>, misses: set<Sha>)
    requires WorldOk(g, w) && Leads(g, s0, s) && Drainable(s) && s.frontier != map[]
    ensures Leads(g, s0, t) && Drainable(t) && t == s.(plan := t.plan) && Planned(t, hits, misses)
  {
    hide Leads, WorldOk, LiveSet, Alive;
    var found;
    found, misses := Pick(g, w, n, s);
    hits := found.Keys;
    var x :| x in hits + misses;
    assert forall y :: y in hits + misses ==> y in Lowest(s.frontier);
    var pl := Plan(s.chain.value.id, s.chain.value.phase, s.frontier[x], found, misses);
    t := s.(plan := Some(pl));
    PlanBatchLeads(g, s0, s, pl, t);
  }

  /** `commit_ids`: bits, seen, kids, and the frontier delete last. */
  method CommitHits(g: Content, s: State, ids: set<Sha>, ghost s0: State) returns (t: State)
    requires Leads(g, s0, s) && Drainable(s) && Fenced(s) && ids <= s.plan.value.hits.Keys
    ensures Leads(g, s0, t) && Drainable(t) && SameRest(s, t) && t.pending == s.pending
    ensures t.seen == s.seen + ids && Fenced(t) && t.plan.value.misses == s.plan.value.misses - ids
    ensures t.frontier.Keys == s.frontier.Keys + (Kids(g, ids) - t.seen) - ids
  {
    hide Leads;
    var pl := s.plan.value;
    var bits := s.(marked := map p | p in s.marked ::
      Marks(s.marked[p].bitmap + HitBits(s.db, pl, p), s.marked[p].built),
                   span := BitsFlushed(ids));
    FlushBitsLeads(g, s0, s, ids, bits);
    var seen := bits.(seen := bits.seen + ids, span := SeenWritten(ids));
    WriteSeenLeads(g, s0, bits, seen);
    var fed := seen.(frontier := Upsert(seen.frontier, Kids(g, ids), seen.seen, pl.gen), span := KidsFed(ids));
    assert Read(seen, ids) == ids && Kids(g, ids) <= Kids(g, pl.hits.Keys);
    FeedKidsLeads(g, s0, seen, Kids(g, ids), fed);
    t := fed.(frontier := fed.frontier - ids, plan := Some(pl.(hits := pl.hits - ids, misses := pl.misses - ids)),
      span := Idle);
    DropExpandedLeads(g, s0, fed, t);
  }

  /** Expanding live frontier objects leaves fewer unseen. */
  lemma HitsShrink(g: Content, s: State, ids: set<Sha>, t: State)
    requires LiveSet(t.db) == LiveSet(s.db) && t.seen == s.seen + ids
    requires t.frontier.Keys <= s.frontier.Keys + (Kids(g, ids) - t.seen) - ids
    requires ids != {} && ids <= LiveSet(s.db) && ids <= s.frontier.Keys
    ensures |Unseen(t)| < |Unseen(s)|
  {
    var x :| x in ids;
    assert x in Unseen(s) && x !in Unseen(t);
    assert Unseen(t) <= Unseen(s);
    Fewer(Unseen(t), Unseen(s));
  }

  lemma SameLiveSets(db: Store, db': Store, pending: map<PackId, int>)
    requires SameLive(db, db') && forall p :: p in pending ==> LivePack(db, p)
    ensures LiveSet(db') == LiveSet(db) && Slots(db', pending) == Slots(db, pending)
  {
    forall x ensures Alive(db, x) <==> Alive(db', x) {
      if Alive(db, x) {
        var p :| LiveCopy(db, x, p);
        assert LiveCopy(db', x, p);
      }
      if Alive(db', x) {
        var p :| LiveCopy(db', x, p);
        assert LiveCopy(db, x, p);
      }
    }
  }

  /** Misses that still have no live row leave the frontier. */
  method DropMissed(g: Content, s: State, misses: set<Sha>, ghost s0: State) returns (t: State)
    requires Leads(g, s0, s) && Drainable(s) && Fenced(s) && misses <= s.plan.value.misses
    ensures Leads(g, s0, t) && Drainable(t) && SameRest(s, t) && t.pending == s.pending && t.seen == s.seen
    ensures t.frontier == s.frontier - (misses - LiveSet(s.db))
  {
    hide Leads;
    t := s.(frontier := s.frontier - (misses - LiveSet(s.db)),
            plan := Some(s.plan.value.(misses := s.plan.value.misses - misses)));
    DropMissesLeads(g, s0, s, misses, t);
  }

  /** How far from empty: unseen objects, positions to page, pending packs, the frontier. */
  datatype Distance = Distance(unseen: nat, slots: nat, pending: nat, frontier: nat)

  ghost function DistanceOf(s: State): Distance {
    Distance(|Unseen(s)|, |Slots(s.db, s.pending)|, |s.pending|, |s.frontier|)
  }

  ghost predicate Closer(a: Distance, b: Distance) {
    || a.unseen < b.unseen
    || (a.unseen == b.unseen && (a.slots < b.slots
      || (a.slots == b.slots && (a.pending < b.pending || (a.pending == b.pending && a.frontier < b.frontier)))))
  }

  /** An await: whatever pushes do. */
  method Await(g: Content, w: World, n: nat, s: State, ghost s0: State) returns (t: State)
    requires WorldOk(g, w) && Leads(g, s0, s) && Drainable(s) && forall p :: p in s.pending ==> LivePack(s.db, p)
    ensures Leads(g, s0, t) && Drainable(t) && t.plan == s.plan && t.seen == s.seen && t.chain == s.chain
    ensures t.rv >= s.rv
    ensures t.rv == s.rv && n !in w.cuts ==>
      t.frontier == s.frontier && t.pending == s.pending
      && LiveSet(t.db) == LiveSet(s.db) && Slots(t.db, t.pending) == Slots(s.db, s.pending)
  {
    hide Leads;
    var b := w.burst(n, s);
    assert Pushes(g, s, b);
    LeadsBurst(g, s0, s, b);
    t := b.states[|b.states| - 1];
    BurstQuiet(g, s, b, |b.states| - 1);
    if t.rv == s.rv && n !in w.cuts { SameLiveSets(s.db, t.db, s.pending); }
  }

  /** The batch's commits. If its hits are still live and in the frontier, there is less to do
      afterwards. */
  method CommitBatch(g: Content, s: State, ids: set<Sha>, misses: set<Sha>, ghost s0: State) returns (t: State)
    requires Leads(g, s0, s) && Drainable(s) && Fenced(s)
    requires ids <= s.plan.value.hits.Keys && s.plan.value.misses == misses && ids !! misses && ids + misses != {}
    ensures Leads(g, s0, t) && Drainable(t) && t.rv == s.rv && t.db == s.db && t.pending == s.pending
    ensures ids <= LiveSet(s.db) && misses !! LiveSet(s.db) && ids + misses <= s.frontier.Keys ==>
      |Unseen(t)| < |Unseen(s)| || (|Unseen(t)| == |Unseen(s)| && |t.frontier| < |s.frontier|)
  {
    hide Leads, Fenced;
    t := s;
    if ids != {} {
      t := CommitHits(g, t, ids, s0);
      if ids <= LiveSet(s.db) && ids <= s.frontier.Keys { HitsShrink(g, s, ids, t); }
    }
    if misses != {} {
      ghost var before := t;
      t := DropMissed(g, t, misses, s0);
      if misses !! LiveSet(s.db) {
        Apart(misses, LiveSet(s.db));
        MissesKeep(before, misses, t);
      }
    }
  }

  /** A walk step: pop, look up, await, commit. Unless a push moved `refs_version` meanwhile
      or was cut early, it leaves fewer unseen objects or a smaller frontier. */
  method WalkOnce(g: Content, w: World, n: nat, s: State, ghost s0: State) returns (t: State)
    requires WorldOk(g, w) && Leads(g, s0, s) && Drainable(s) && s.frontier != map[]
    requires forall p :: p in s.pending ==> LivePack(s.db, p)
    ensures Leads(g, s0, t) && Drainable(t) && t.rv >= s.rv
    ensures t.rv == s.rv && n !in w.cuts ==>
      t.pending == s.pending && Slots(t.db, t.pending) == Slots(s.db, s.pending)
    ensures t.rv == s.rv && n !in w.cuts ==>
      |Unseen(t)| < |Unseen(s)| || (|Unseen(t)| == |Unseen(s)| && |t.frontier| < |s.frontier|)
  {
    hide Leads, Slots;
    var hits, misses;
    t, hits, misses := PlanOnce(g, w, n, s, s0);
    t := Await(g, w, n, t, s0);
    t := CommitBatch(g, t, if hits == {} then {} else w.done(n, hits), misses, s0);
  }

  lemma MissesKeep(s: State, misses: set<Sha>, t: State)
    requires t.db == s.db && t.seen == s.seen && t.frontier == s.frontier - misses && misses !! LiveSet(s.db)
    requires misses != {}
    ensures Unseen(t) == Unseen(s) && (misses <= s.frontier.Keys ==> |t.frontier| < |s.frontier|)
  {
    if misses <= s.frontier.Keys {
      assert t.frontier.Keys == s.frontier.Keys - misses;
      var x :| x in misses;
      Fewer(t.frontier.Keys, s.frontier.Keys);
      assert |t.frontier.Keys| == |t.frontier| && |s.frontier.Keys| == |s.frontier|;
    }
  }

  /** One iteration after the check: at most one page, then one walk step. */
  method Iterate(g: Content, w: World, n: nat, s: State, window: nat, rows: nat, ghost s0: State) returns (t: State)
    requires WorldOk(g, w) && Leads(g, s0, s) && Drainable(s) && window > 0 && rows > 0
    requires (forall p :: p in s.pending ==> LivePack(s.db, p)) && !(s.frontier == map[] && s.pending == map[])
    ensures Leads(g, s0, t) && Drainable(t) && t.rv >= s.rv
    ensures t.rv == s.rv && n !in w.cuts ==> Closer(DistanceOf(t), DistanceOf(s))
  {
    hide Leads, WorldOk, Pushes, Slots, Unseen;
    t := s;
    if s.pending != map[] {
      var p :| p in s.pending;
      var end, last;
      t, end, last := PageOnce(g, s, p, window, rows, s0);
      PageShrinks(s.db, s.pending, p, end, last);
      PageUnseen(s, t);
    }
    if t.frontier != map[] {
      t := WalkOnce(g, w, n, t, s0);
    }
  }

  lemma PageUnseen(s: State, t: State)
    requires t.db == s.db && t.seen == s.seen && s.frontier.Keys <= t.frontier.Keys
    requires t.frontier.Keys !! (s.seen - s.frontier.Keys)
    ensures Unseen(t) == Unseen(s)
  {
  }

  function Later(cuts: set<nat>, n: nat): set<nat> {
    set k | k in cuts && k > n
  }

  lemma LaterShrinks(cuts: set<nat>, n: nat)
    requires n > 0
    ensures |Later(cuts, n)| <= |Later(cuts, n - 1)| && (n in cuts ==> |Later(cuts, n)| < |Later(cuts, n - 1)|)
  {
    Fewer(Later(cuts, n), Later(cuts, n - 1));
    if n in cuts { assert n in Later(cuts, n - 1) && n !in Later(cuts, n); }
  }

  /** Why the drain ended: both tables empty, or the retry budget spent. */
  datatype Verdict = Swap | Fallback

  /** The turns, of the first n, at which the slice under way was out of budget. */
  function Spent(w: World, n: nat): set<nat> {
    set k: nat | k <= n && w.spent(k)
  }

  lemma SpentMore(w: World, n: nat)
    requires n > 0
    ensures |Spent(w, n)| == |Spent(w, n - 1)| + if w.spent(n) then 1 else 0
  {
    assert Spent(w, n) == Spent(w, n - 1) + if w.spent(n) then {n} else {};
  }

  /** The drain over all of a sweep's slices. `tries` counts the checks that saw
      `refs_version` move, `slices` the slices that ran out of budget; at their limits the
      lossless fallback takes over. Whatever pushes do, and whenever slices end, it ends, if
      finitely many pushes are cut early. A try is paid for by a move of `refs_version` and a
      slice by a turn out of budget, so a drain that sees neither to its limit swaps. */
  method DrainLoop(g: Content, w: World, s0: State, maxTries: nat, maxSlices: nat, window: nat, rows: nat)
    returns (s: State, why: Verdict, tries: nat, slices: nat, turns: nat)
    requires WorldOk(g, w) && Drainable(s0) && window > 0 && rows > 0
    ensures Leads(g, s0, s) && Drainable(s)
    ensures tries <= maxTries && s0.rv + tries <= s.rv && slices <= |Spent(w, turns)|
    ensures why.Swap? <==> s.frontier == map[] && s.pending == map[]
    ensures why.Fallback? ==> tries == maxTries || slices >= maxSlices
    ensures s.rv - s0.rv < maxTries && |Spent(w, turns)| < maxSlices ==> why.Swap?
  {
    hide Leads, WorldOk, DistanceOf, Drainable, Spent;
    var n, base, begun := 0, s0.rv, true;
    s, tries, slices := s0, 0, 0;
    LeadsSelf(g, s0);
    while true
      invariant Leads(g, s0, s) && Drainable(s) && tries <= maxTries && base <= s.rv && (!begun ==> slices < maxSlices)
      invariant s0.rv + tries <= base && slices <= |Spent(w, n)|
      decreases maxSlices - slices, 2 * (maxTries - tries) + (if s.rv == base then 1 else 0), |Later(w.cuts, n)|,
        DistanceOf(s).unseen, DistanceOf(s).slots, DistanceOf(s).pending, DistanceOf(s).frontier
    {
      n := n + 1;
      LaterShrinks(w.cuts, n);
      SpentMore(w, n);
      if !begun && w.spent(n) {
        slices, begun := slices + 1, true;
        continue;
      }
      begun := false;
      ghost var was := s;
      s := DropDead(g, s, s0);
      DropShrinks(was, s);
      if s.frontier == map[] && s.pending == map[] { return s, Swap, tries, slices, n; }
      if tries >= maxTries || slices >= maxSlices { return s, Fallback, tries, slices, n; }
      if s.rv != base {
        base, tries := s.rv, tries + 1;
      }
      s := Iterate(g, w, n, s, window, rows, s0);
    }
  }

  lemma DropShrinks(s: State, t: State)
    requires t == s.(pending := map p | p in s.pending && LivePack(s.db, p) :: s.pending[p])
    ensures var a, b := DistanceOf(t), DistanceOf(s);
      a.unseen == b.unseen && a.slots <= b.slots && a.pending <= b.pending && a.frontier == b.frontier
  {
    assert Unseen(t) == Unseen(s);
    assert Slots(t.db, t.pending) <= Slots(s.db, s.pending);
    Fewer(Slots(t.db, t.pending), Slots(s.db, s.pending));
    assert t.pending.Keys <= s.pending.Keys;
    Fewer(t.pending.Keys, s.pending.Keys);
    assert |t.pending.Keys| == |t.pending| && |s.pending.Keys| == |s.pending|;
  }
}
