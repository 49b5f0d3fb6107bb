/** The objects a fetch is asked about, and what it has to do with them, said over the graph
    alone: what the client holds, what the wants peel to, which commits the walk visits, and
    what lies below the trees it sends. */
module FetchGraph {
  import opened Repository

  datatype Mode = Directory | File | Gitlink
  datatype TreeEntry = TreeEntry(name: string, mode: Mode, oid: Sha)

  /** The objects: a commit's tree and parents, a tree's entries, a tag's target, and which
      have a live row. `depth` witnesses that tags do not point in circles. */
  datatype Graph = Graph(kind: Sha -> Kind, tree: Sha -> Sha, parents: Sha -> seq<Sha>,
                         entries: Sha -> seq<TreeEntry>, target: Sha -> Sha, live: Sha -> bool, depth: Sha -> nat)

  /** What an object names. */
  ghost predicate Links(g: Graph, x: Sha, y: Sha) {
    match g.kind(x)
    case Commit => y == g.tree(x) || y in g.parents(x)
    case Tree => exists e :: e in g.entries(x) && !e.mode.Gitlink? && e.oid == y
    case Tag => y == g.target(x)
    case Blob => false
  }

  ghost predicate WellTyped(g: Graph) {
    && (forall x :: g.kind(x).Commit? ==> g.kind(g.tree(x)).Tree?)
    && (forall x, p :: g.kind(x).Commit? && p in g.parents(x) ==> g.kind(p).Commit?)
    && (forall x, e :: g.kind(x).Tree? && e in g.entries(x) ==>
      (e.mode.Directory? ==> g.kind(e.oid).Tree?) && (e.mode.File? ==> g.kind(e.oid).Blob?)
      && (e.mode.Gitlink? ==> g.kind(e.oid).Commit?))
    && (forall x :: g.kind(x).Tag? ==> g.depth(g.target(x)) < g.depth(x))
  }

  // ---- closures ---------------------------------------------------------------------

  ghost predicate Route(g: Graph, path: seq<Sha>) {
    path != [] && forall i :: 0 <= i < |path| - 1 ==> Links(g, path[i], path[i + 1])
  }

  /** y is in the closure of x. */
  ghost predicate Reaches(g: Graph, x: Sha, y: Sha) {
    exists path :: Route(g, path) && path[0] == x && path[|path| - 1] == y
  }

  /** The client has everything its commits reach. */
  ghost predicate Held(g: Graph, acks: set<Sha>, y: Sha) {
    exists h :: h in acks && Reaches(g, h, y)
  }

  lemma ReachesStep(g: Graph, x: Sha, y: Sha, z: Sha)
    requires Reaches(g, x, y) && Links(g, y, z)
    ensures Reaches(g, x, z)
  {
    var path :| Route(g, path) && path[0] == x && path[|path| - 1] == y;
    var longer := path + [z];
    assert Route(g, longer) && longer[0] == x && longer[|longer| - 1] == z;
  }

  lemma HeldStep(g: Graph, acks: set<Sha>, y: Sha, z: Sha)
    requires Held(g, acks, y) && Links(g, y, z)
    ensures Held(g, acks, z)
  {
    var h :| h in acks && Reaches(g, h, y);
    ReachesStep(g, h, y, z);
  }

  lemma HeldSelf(g: Graph, acks: set<Sha>, x: Sha)
    requires x in acks
    ensures Held(g, acks, x)
  {
    assert Route(g, [x]) && [x][0] == x && [x][|[x]| - 1] == x;
  }

  /** Every link of a covered object is covered or held. */
  ghost predicate Closed(g: Graph, acks: set<Sha>, done: set<Sha>) {
    forall x, y :: x in done && Links(g, x, y) ==> y in done || Held(g, acks, y)
  }

  lemma {:induction false} ClosedPath(g: Graph, acks: set<Sha>, done: set<Sha>, path: seq<Sha>)
    requires Closed(g, acks, done) && Route(g, path) && (path[0] in done || Held(g, acks, path[0]))
    ensures path[|path| - 1] in done || Held(g, acks, path[|path| - 1])
  {
    if |path| > 1 {
      var init := path[..|path| - 1];
      forall i | 0 <= i < |init| - 1 ensures Links(g, init[i], init[i + 1]) {
        assert Links(g, path[i], path[i + 1]);
      }
      ClosedPath(g, acks, done, init);
      var y, z := init[|init| - 1], path[|path| - 1];
      assert Links(g, y, z) by { assert y == path[|path| - 2] && path[|path| - 2 + 1] == z; }
      if Held(g, acks, y) { HeldStep(g, acks, y, z); }
    }
  }

  /** A closed set accounts for the whole closure of each of its members. */
  lemma ClosureCovered(g: Graph, acks: set<Sha>, done: set<Sha>, x: Sha, y: Sha)
    requires Closed(g, acks, done) && (x in done || Held(g, acks, x)) && Reaches(g, x, y)
    ensures y in done || Held(g, acks, y)
  {
    var path :| Route(g, path) && path[0] == x && path[|path| - 1] == y;
    ClosedPath(g, acks, done, path);
  }

  // ---- the wants --------------------------------------------------------------------

  /** Tags followed down, one after another. */
  ghost predicate TagPath(g: Graph, path: seq<Sha>) {
    path != [] && forall i :: 0 <= i < |path| - 1 ==> g.kind(path[i]).Tag? && path[i + 1] == g.target(path[i])
  }

  /** x is wanted, or what a wanted tag points at in the end or on the way. */
  ghost predicate Peeled(g: Graph, wants: seq<Sha>, x: Sha) {
    exists path :: TagPath(g, path) && path[0] in wants && path[|path| - 1] == x
  }

  lemma PeeledWant(g: Graph, wants: seq<Sha>, x: Sha)
    requires x in wants
    ensures Peeled(g, wants, x)
  {
    assert TagPath(g, [x]) && [x][0] == x && [x][|[x]| - 1] == x;
  }

  lemma PeeledStep(g: Graph, wants: seq<Sha>, t: Sha)
    requires Peeled(g, wants, t) && g.kind(t).Tag?
    ensures Peeled(g, wants, g.target(t))
  {
    var path :| TagPath(g, path) && path[0] in wants && path[|path| - 1] == t;
    var longer := path + [g.target(t)];
    assert TagPath(g, longer) && longer[0] == path[0] && longer[|longer| - 1] == g.target(t);
  }

  /** Marked for the wants alone: the wants, and the live blobs their tags point at. */
  ghost predicate Seeded(g: Graph, wants: seq<Sha>, x: Sha) {
    x in wants || (Peeled(g, wants, x) && g.kind(x).Blob? && g.live(x))
  }

  // ---- the commits ------------------------------------------------------------------

  /** From a commit the client lacks to a parent it lacks. */
  predicate Onward(g: Graph, acks: set<Sha>, c: Sha, p: Sha) {
    c !in acks && p in g.parents(c) && p !in acks
  }

  ghost predicate CommitPath(g: Graph, acks: set<Sha>, path: seq<Sha>) {
    path != [] && forall i :: 0 <= i < |path| - 1 ==> Onward(g, acks, path[i], path[i + 1])
  }

  /** The walk comes to commit c: from a commit the wants peel to, onward. */
  ghost predicate Visits(g: Graph, acks: set<Sha>, wants: seq<Sha>, c: Sha) {
    exists path :: CommitPath(g, acks, path) && Peeled(g, wants, path[0]) && g.kind(path[0]).Commit?
      && path[|path| - 1] == c
  }

  lemma VisitsTip(g: Graph, acks: set<Sha>, wants: seq<Sha>, c: Sha)
    requires Peeled(g, wants, c) && g.kind(c).Commit?
    ensures Visits(g, acks, wants, c)
  {
    assert CommitPath(g, acks, [c]) && [c][0] == c && [c][|[c]| - 1] == c;
  }

  lemma VisitsStep(g: Graph, acks: set<Sha>, wants: seq<Sha>, c: Sha, p: Sha)
    requires Visits(g, acks, wants, c) && Onward(g, acks, c, p)
    ensures Visits(g, acks, wants, p)
  {
    var path :| CommitPath(g, acks, path) && Peeled(g, wants, path[0]) && g.kind(path[0]).Commit?
      && path[|path| - 1] == c;
    var longer := path + [p];
    assert CommitPath(g, acks, longer) && longer[0] == path[0] && longer[|longer| - 1] == p;
  }

  /** A set that holds the tips and goes onward holds every commit visited. */
  lemma {:induction false} VisitedIn(g: Graph, acks: set<Sha>, met: set<Sha>, path: seq<Sha>)
    requires CommitPath(g, acks, path) && path[0] in met
    requires forall c, p :: c in met && Onward(g, acks, c, p) ==> p in met
    ensures path[|path| - 1] in met
  {
    if |path| > 1 {
      var init := path[..|path| - 1];
      VisitedIn(g, acks, met, init);
      assert Onward(g, acks, path[|path| - 2], path[|path| - 2 + 1]) && init[|init| - 1] == path[|path| - 2];
    }
  }

  /** Sent: visited and lacked by the client, or wanted. */
  ghost predicate Ships(g: Graph, acks: set<Sha>, wants: seq<Sha>, c: Sha) {
    Visits(g, acks, wants, c) && (c !in acks || c in wants)
  }

  // ---- the trees --------------------------------------------------------------------

  /** A tree expanded in its own right: of a sent commit, or what the wants peel to. */
  ghost predicate RootTree(g: Graph, acks: set<Sha>, wants: seq<Sha>, t: Sha) {
    (Peeled(g, wants, t) && g.kind(t).Tree?) || exists c :: Ships(g, acks, wants, c) && g.tree(c) == t
  }

  ghost predicate Below(g: Graph, acks: set<Sha>, wants: seq<Sha>, x: Sha) {
    exists t :: RootTree(g, acks, wants, t) && Reaches(g, t, x)
  }

  predicate EntryOf(g: Graph, t: Sha, x: Sha) {
    exists e :: e in g.entries(t) && !e.mode.Gitlink? && e.oid == x
  }

  /** x is an entry of a tree below a root. */
  ghost predicate Within(g: Graph, acks: set<Sha>, wants: seq<Sha>, x: Sha) {
    exists t :: Below(g, acks, wants, t) && g.kind(t).Tree? && EntryOf(g, t, x)
  }

  lemma BelowRoot(g: Graph, acks: set<Sha>, wants: seq<Sha>, t: Sha)
    requires RootTree(g, acks, wants, t)
    ensures Below(g, acks, wants, t)
  {
    assert Route(g, [t]) && [t][0] == t && [t][|[t]| - 1] == t;
    assert Reaches(g, t, t);
  }

  lemma WithinBelow(g: Graph, acks: set<Sha>, wants: seq<Sha>, t: Sha, x: Sha)
    requires Below(g, acks, wants, t) && g.kind(t).Tree? && EntryOf(g, t, x)
    ensures Below(g, acks, wants, x) && Within(g, acks, wants, x)
  {
    var r :| RootTree(g, acks, wants, r) && Reaches(g, r, t);
    var e :| e in g.entries(t) && !e.mode.Gitlink? && e.oid == x;
    ReachesStep(g, r, t, x);
  }

  /** There is a reason to send x: the wants alone, the commit walk, or a tree that is sent. */
  ghost predicate AskedFor(g: Graph, acks: set<Sha>, wants: seq<Sha>, x: Sha) {
    || Seeded(g, wants, x) || Ships(g, acks, wants, x)
    || ((g.kind(x).Tree? || g.kind(x).Blob?) && Below(g, acks, wants, x))
  }

  // ---- why a fetch is refused -------------------------------------------------------

  /** x has to be read, and has no live row. */
  ghost predicate Absent(g: Graph, acks: set<Sha>, wants: seq<Sha>, x: Sha) {
    && !g.live(x)
    && (|| x in wants || (Peeled(g, wants, x) && g.kind(x).Tag?)
        || Visits(g, acks, wants, x) || Below(g, acks, wants, x))
  }

  /** A tree of the client's to compare with has no live row. */
  ghost predicate BaseAbsent(g: Graph, acks: set<Sha>) {
    exists x :: Held(g, acks, x) && g.kind(x).Tree? && !g.live(x)
  }

  ghost predicate AllVisited(g: Graph, acks: set<Sha>, wants: seq<Sha>, xs: set<Sha>) {
    forall x :: x in xs ==> Visits(g, acks, wants, x)
  }

  ghost predicate ManyCommits(g: Graph, acks: set<Sha>, wants: seq<Sha>) {
    exists xs :: AllVisited(g, acks, wants, xs) && |xs| > 200_000
  }

  /** Seeds, and entries the walk takes up; with `pruned` only those the client lacks. */
  ghost predicate AllTaken(g: Graph, acks: set<Sha>, wants: seq<Sha>, pruned: bool, xs: set<Sha>) {
    forall x :: x in xs ==>
      Seeded(g, wants, x) || (Within(g, acks, wants, x) && (pruned ==> !Held(g, acks, x)))
  }

  ghost predicate AllSeeded(g: Graph, wants: seq<Sha>, xs: set<Sha>) {
    forall x :: x in xs ==> Seeded(g, wants, x)
  }

  /** More than a million, and not by the seeds alone. */
  ghost predicate ManyObjects(g: Graph, acks: set<Sha>, wants: seq<Sha>, pruned: bool) {
    exists xs :: AllTaken(g, acks, wants, pruned, xs) && |xs| > 1_000_000 && !AllSeeded(g, wants, xs)
  }

  /** Everything a refusal can be for. */
  ghost predicate Refusable(g: Graph, acks: set<Sha>, wants: seq<Sha>) {
    || (exists x :: Absent(g, acks, wants, x)) || BaseAbsent(g, acks)
    || ManyCommits(g, acks, wants) || ManyObjects(g, acks, wants, false)
  }

  /** What is refused for certain, however trees are pruned: something to read that has no live
      row and that the client lacks, or is a want, a tag or a commit, or a limit passed. */
  ghost predicate Refused(g: Graph, acks: set<Sha>, wants: seq<Sha>) {
    || (exists x :: Absent(g, acks, wants, x)
          && (x in wants || g.kind(x).Tag? || g.kind(x).Commit? || !Held(g, acks, x)))
    || ManyCommits(g, acks, wants) || ManyObjects(g, acks, wants, true)
  }

  /** For a client with nothing the two are one. */
  lemma CloneRefused(g: Graph, wants: seq<Sha>)
    ensures Refusable(g, {}, wants) <==> Refused(g, {}, wants)
  {
    hide Absent, ManyCommits, Seeded, Within, AllSeeded;
    assert forall x :: !Held(g, {}, x);
    assert forall xs :: AllTaken(g, {}, wants, false, xs) <==> AllTaken(g, {}, wants, true, xs);
  }
}
