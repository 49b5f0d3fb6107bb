/** What a fetch sends: a walk from the wanted objects that stops at what the client has,
    and prunes trees against trees the client provably holds. An unfiltered, non-shallow
    fetch. */
module Fetch {
  import opened Repository
  import opened FetchGraph

  // ---- the commit walk --------------------------------------------------------------

  const MAX_COMMITS := 200_000
  const MAX_OBJECTS := 1_000_000

  /** What the commit walk has found: commits met, commits to send, root trees to expand,
      and trees the client holds. */
  datatype Walked = Walked(met: set<Sha>, sent: set<Sha>, trees: set<Sha>, bases: set<Sha>, edge: set<Sha>)

  ghost predicate WalkOk(g: Graph, acks: set<Sha>, w: Walked, todo: set<Sha>) {
    && (forall c :: c in w.met ==> g.kind(c).Commit? && (c in acks || c in w.sent))
    && (forall c :: c in w.sent && c in w.met ==> g.tree(c) in w.trees)
    && (forall c, p :: c in w.met && c !in acks && p in g.parents(c) ==> p in acks || p in w.met || p in todo)
    && (forall b :: b in w.bases ==> g.kind(b).Tree? && Held(g, acks, b))
    && (forall e :: e in w.edge ==> e in acks && g.kind(e).Commit?)
    && (forall t :: t in w.trees ==> g.kind(t).Tree?)
  }

  /** The parents to walk, and those the client has. */
  method SplitParents(ps: seq<Sha>, acks: set<Sha>) returns (next: set<Sha>, edge: set<Sha>)
    ensures forall p :: p in next <==> p in ps && p !in acks
    ensures forall p :: p in edge <==> p in ps && p in acks
  {
    next, edge := {}, {};
    for i := 0 to |ps|
      invariant forall p :: p in next <==> p in ps[..i] && p !in acks
      invariant forall p :: p in edge <==> p in ps[..i] && p in acks
    {
      assert ps[..i + 1] == ps[..i] + [ps[i]];
      if ps[i] !in acks { next := next + {ps[i]}; } else { edge := edge + {ps[i]}; }
    }
    assert ps[..|ps|] == ps;
  }

  function Edges(g: Graph, acks: set<Sha>, met: set<Sha>): set<Sha> {
    set c, p | c in met && c !in acks && p in g.parents(c) && p in acks :: p
  }

  /** The walk's lists are exactly what the commits met give: sent are the wanted and those the
      client lacks, with their trees; bases are the trees of walls, edges the parents the client
      has of those it lacks. */
  ghost predicate WalkExact(g: Graph, acks: set<Sha>, wanted: set<Sha>, trees: set<Sha>, w: Walked) {
    && w.sent == wanted + (set c | c in w.met && c !in acks)
    && w.trees == trees + (set c | c in w.met && (c !in acks || c in wanted) :: g.tree(c))
    && w.bases == (set c | c in w.met && c in acks :: g.tree(c))
    && w.edge == Edges(g, acks, w.met)
  }

  /** One commit: a wall if the client has it, else sent; parents the client has are edges. */
  method VisitCommit(g: Graph, acks: set<Sha>, c: Sha, w: Walked, ghost open: set<Sha>, ghost wanted: set<Sha>,
                     ghost trees: set<Sha>)
    returns (w': Walked, next: set<Sha>)
    requires WellTyped(g) && WalkOk(g, acks, w, open) && g.kind(c).Commit? && WalkExact(g, acks, wanted, trees, w)
    ensures WalkOk(g, acks, w', open - {c} + next) && w'.met == w.met + {c} && WalkExact(g, acks, wanted, trees, w')
    ensures forall p :: p in next <==> Onward(g, acks, c, p)
    ensures forall x :: x in next ==> g.kind(x).Commit?
  {
    hide WalkOk, WalkExact;
    var tree := g.tree(c);
    ExactEdges(g, acks, wanted, trees, w);
    if c in acks {
      next := {};
      w' := Walked(w.met + {c}, w.sent, if c in w.sent then w.trees + {tree} else w.trees, w.bases + {tree}, w.edge);
      WallOk(g, acks, w, open, c, w');
      EdgesWall(g, acks, w.met, c);
    } else {
      var edge;
      next, edge := SplitParents(g.parents(c), acks);
      w' := Walked(w.met + {c}, w.sent + {c}, w.trees + {tree}, w.bases, w.edge + edge);
      SentOk(g, acks, w, open, c, next, edge, w');
      EdgesMore(g, acks, w.met, c, edge);
    }
    MetOne(g, acks, wanted, trees, w, c, w');
  }

  lemma ExactEdges(g: Graph, acks: set<Sha>, wanted: set<Sha>, trees: set<Sha>, w: Walked)
    requires WalkExact(g, acks, wanted, trees, w)
    ensures w.edge == Edges(g, acks, w.met)
  {
  }

  lemma WallOk(g: Graph, acks: set<Sha>, w: Walked, open: set<Sha>, c: Sha, w': Walked)
    requires WellTyped(g) && WalkOk(g, acks, w, open) && g.kind(c).Commit? && c in acks
    requires w' == Walked(w.met + {c}, w.sent, if c in w.sent then w.trees + {g.tree(c)} else w.trees,
                          w.bases + {g.tree(c)}, w.edge)
    ensures WalkOk(g, acks, w', open - {c} + {})
  {
    hide Held;
    HeldSelf(g, acks, c);
    HeldStep(g, acks, c, g.tree(c));
  }

  lemma SentOk(g: Graph, acks: set<Sha>, w: Walked, open: set<Sha>, c: Sha, next: set<Sha>, edge: set<Sha>, w': Walked)
    requires WellTyped(g) && WalkOk(g, acks, w, open) && g.kind(c).Commit? && c !in acks
    requires forall p :: p in next <==> p in g.parents(c) && p !in acks
    requires forall p :: p in edge <==> p in g.parents(c) && p in acks
    requires w' == Walked(w.met + {c}, w.sent + {c}, w.trees + {g.tree(c)}, w.bases, w.edge + edge)
    ensures WalkOk(g, acks, w', open - {c} + next) && forall x :: x in next ==> g.kind(x).Commit?
  {
    hide Held;
  }

  lemma EdgesWall(g: Graph, acks: set<Sha>, met: set<Sha>, c: Sha)
    requires c in acks
    ensures Edges(g, acks, met + {c}) == Edges(g, acks, met)
  {
  }

  lemma EdgesMore(g: Graph, acks: set<Sha>, met: set<Sha>, c: Sha, edge: set<Sha>)
    requires c !in acks && forall p :: p in edge <==> p in g.parents(c) && p in acks
    ensures Edges(g, acks, met + {c}) == Edges(g, acks, met) + edge
  {
  }

  lemma MetOne(g: Graph, acks: set<Sha>, wanted: set<Sha>, trees: set<Sha>, w: Walked, c: Sha, w': Walked)
    requires WalkExact(g, acks, wanted, trees, w) && w'.met == w.met + {c}
    requires w'.sent == (if c in acks then w.sent else w.sent + {c})
    requires w'.trees == (if c in acks && c !in w.sent then w.trees else w.trees + {g.tree(c)})
    requires w'.bases == (if c in acks then w.bases + {g.tree(c)} else w.bases)
    requires w'.edge == Edges(g, acks, w'.met)
    ensures WalkExact(g, acks, wanted, trees, w')
  {
  }

  lemma Unmet(g: Graph, acks: set<Sha>, w: Walked, todo: set<Sha>)
    requires WalkOk(g, acks, w, todo)
    ensures WalkOk(g, acks, w, todo - w.met)
  {
    hide Held;
  }

  lemma FirstWalk(g: Graph, acks: set<Sha>, wanted: set<Sha>, start: set<Sha>, trees: set<Sha>)
    requires forall t :: t in trees ==> g.kind(t).Tree?
    ensures WalkOk(g, acks, Walked({}, wanted, trees, {}, {}), start)
    ensures WalkExact(g, acks, wanted, trees, Walked({}, wanted, trees, {}, {}))
  {
    assert Edges(g, acks, {}) == {};
  }

  lemma TooMany(g: Graph, acks: set<Sha>, wants: seq<Sha>, met: set<Sha>, level: set<Sha>)
    requires AllVisited(g, acks, wants, met) && AllVisited(g, acks, wants, level) && met !! level
    requires |met| + |level| > MAX_COMMITS
    ensures ManyCommits(g, acks, wants)
  {
    hide Visits;
    assert AllVisited(g, acks, wants, met + level) && |met + level| == |met| + |level|;
  }

  /** The walk, level by level, until nothing new is met. It is refused for too many commits, or
      one without a live row, and for nothing else. */
  method WalkCommits(g: Graph, acks: set<Sha>, wanted: set<Sha>, start: set<Sha>, trees: set<Sha>,
                     ghost wants: seq<Sha>)
    returns (w: Walked, ok: bool)
    requires WellTyped(g)
    requires (forall c :: c in start ==> g.kind(c).Commit?) && (forall t :: t in trees ==> g.kind(t).Tree?)
    requires AllVisited(g, acks, wants, start)
    ensures ok ==> WalkOk(g, acks, w, {}) && WalkExact(g, acks, wanted, trees, w) && start <= w.met
    ensures ok ==> AllVisited(g, acks, wants, w.met) && |w.met| <= MAX_COMMITS && forall c :: c in w.met ==> g.live(c)
    ensures !ok ==> ManyCommits(g, acks, wants) || exists c :: Visits(g, acks, wants, c) && !g.live(c)
  {
    hide WalkOk, WellTyped, WalkExact, Visits;
    FirstWalk(g, acks, wanted, start, trees);
    w := Walked({}, wanted, trees, {}, {});
    var queue := start;
    ok := true;
    while queue != {}
      invariant ok && WalkOk(g, acks, w, queue) && start <= w.met + queue && WalkExact(g, acks, wanted, trees, w)
      invariant AllVisited(g, acks, wants, w.met) && AllVisited(g, acks, wants, queue)
      invariant |w.met| <= MAX_COMMITS && (forall c :: c in queue ==> g.kind(c).Commit?)
      invariant forall c :: c in w.met ==> g.live(c)
      decreases MAX_COMMITS - |w.met|, queue
    {
      var level := queue - w.met;
      if |w.met| + |level| > MAX_COMMITS {
        TooMany(g, acks, wants, w.met, level);
        return w, false;
      }
      if exists c :: c in level && !g.live(c) { return w, false; }
      Unmet(g, acks, w, queue);
      w, queue := VisitLevel(g, acks, level, w, wanted, trees, wants);
    }
  }

  method VisitLevel(g: Graph, acks: set<Sha>, level: set<Sha>, w: Walked, ghost wanted: set<Sha>,
                    ghost trees: set<Sha>, ghost wants: seq<Sha>)
    returns (w': Walked, next: set<Sha>)
    requires WellTyped(g) && WalkOk(g, acks, w, level) && level !! w.met && forall c :: c in level ==> g.kind(c).Commit?
    requires WalkExact(g, acks, wanted, trees, w) && AllVisited(g, acks, wants, level)
    ensures WalkOk(g, acks, w', next) && w'.met == w.met + level && WalkExact(g, acks, wanted, trees, w')
    ensures |w'.met| == |w.met| + |level| && (level == {} ==> next == {}) && forall c :: c in next ==> g.kind(c).Commit?
    ensures AllVisited(g, acks, wants, next)
  {
    hide WalkOk, WellTyped, WalkExact, Visits;
    w', next := w, {};
    var todo := level;
    ghost var open := level;
    while todo != {}
      invariant WalkOk(g, acks, w', open) && forall x :: x in w'.met <==> x in w.met || (x in level && x !in todo)
      invariant forall x :: x in todo ==> x in level
      invariant WalkExact(g, acks, wanted, trees, w') && AllVisited(g, acks, wants, next)
      invariant (level == {} ==> next == {})
      invariant (forall x :: x in open ==> x in todo || x in next) && forall c :: c in next ==> g.kind(c).Commit?
      decreases todo
    {
      var c :| c in todo;
      var more;
      w', more := VisitCommit(g, acks, c, w', open, wanted, trees);
      forall p | p in more ensures Visits(g, acks, wants, p) { VisitsStep(g, acks, wants, c, p); }
      todo, open, next := todo - {c}, open - {c} + more, next + more;
    }
    Wider(g, acks, w', open, next);
    assert w'.met == w.met + level;
  }

  lemma Wider(g: Graph, acks: set<Sha>, w: Walked, open: set<Sha>, open': set<Sha>)
    requires WalkOk(g, acks, w, open) && forall x :: x in open ==> x in open'
    ensures WalkOk(g, acks, w, open')
  {
  }

  // ---- the tree walk ----------------------------------------------------------------

  /** A tree to expand, with the trees the client holds that it is pruned against. */
  datatype Item = Item(tree: Sha, bases: set<Sha>)

  ghost predicate ItemOk(g: Graph, acks: set<Sha>, it: Item) {
    g.kind(it.tree).Tree? && forall b :: b in it.bases ==> g.kind(b).Tree? && Held(g, acks, b)
  }

  ghost predicate ItemsOk(g: Graph, acks: set<Sha>, items: seq<Item>) {
    forall i :: 0 <= i < |items| ==> ItemOk(g, acks, items[i])
  }

  ghost predicate Listed(items: seq<Item>, t: Sha) {
    exists i :: 0 <= i < |items| && items[i].tree == t
  }

  lemma ListedMore(items: seq<Item>, more: seq<Item>, t: Sha)
    requires Listed(items, t) || Listed(more, t)
    ensures Listed(items + more, t)
  {
    if Listed(items, t) {
      var i :| 0 <= i < |items| && items[i].tree == t;
      assert (items + more)[i].tree == t;
    } else {
      var i :| 0 <= i < |more| && more[i].tree == t;
      assert (items + more)[|items| + i].tree == t;
    }
  }

  function EntryIds(es: seq<TreeEntry>): set<Sha> {
    set e | e in es :: e.oid
  }

  /** The ids the bases list. */
  function BaseIds(g: Graph, bases: set<Sha>): set<Sha> {
    set b, e | b in bases && e in g.entries(b) :: e.oid
  }

  /** One of the bases has directory d under this name. */
  ghost predicate BaseDir(g: Graph, bases: set<Sha>, name: string, d: Sha) {
    exists b, e :: b in bases && e in g.entries(b) && e.mode.Directory? && e.name == name && e.oid == d
  }

  /** Every directory name of the bases, with one of the directories there. */
  ghost predicate NamesOk(g: Graph, bases: set<Sha>, byName: map<string, Sha>) {
    && (forall n :: n in byName ==> BaseDir(g, bases, n, byName[n]))
    && (forall b, e :: b in bases && e in g.entries(b) && e.mode.Directory? ==> e.name in byName)
  }

  /** One base's entries: all of them are the client's. */
  method BaseEntries(g: Graph, b: Sha, had: set<Sha>, byName: map<string, Sha>, ghost bases: set<Sha>)
    returns (had': set<Sha>, byName': map<string, Sha>)
    requires had == BaseIds(g, bases) && NamesOk(g, bases, byName)
    ensures had' == BaseIds(g, bases + {b}) && NamesOk(g, bases + {b}, byName')
  {
    hide NamesOk, BaseDir, BaseIds, EntryIds;
    had', byName' := had, byName;
    NoEntries(had);
    var es := g.entries(b);
    for i := 0 to |es|
      invariant had' == had + EntryIds(es[..i])
      invariant forall n :: n in byName' ==> (n in byName && byName'[n] == byName[n]) || BaseDir(g, {b}, n, byName'[n])
      invariant forall n :: n in byName ==> n in byName'
      invariant forall j :: 0 <= j < i && es[j].mode.Directory? ==> es[j].name in byName'
    {
      var e := es[i];
      assert e in g.entries(b) && es[..i + 1] == es[..i] + [e];
      IdsSnoc(es[..i], e);
      had' := had' + {e.oid};
      if e.mode.Directory? {
        DirOf(g, b, e);
        byName' := byName'[e.name := e.oid];
      }
    }
    assert es[..|es|] == es;
    BasesMore(g, bases, b, byName, byName');
  }

  lemma NoEntries(had: set<Sha>)
    ensures had + EntryIds([]) == had
  {
  }

  lemma IdsSnoc(es: seq<TreeEntry>, e: TreeEntry)
    ensures EntryIds(es + [e]) == EntryIds(es) + {e.oid}
  {
  }

  lemma DirOf(g: Graph, b: Sha, e: TreeEntry)
    requires e in g.entries(b) && e.mode.Directory?
    ensures BaseDir(g, {b}, e.name, e.oid)
  {
  }

  lemma BasesMore(g: Graph, bases: set<Sha>, b: Sha, byName: map<string, Sha>, byName': map<string, Sha>)
    requires NamesOk(g, bases, byName) && forall n :: n in byName ==> n in byName'
    requires forall n :: n in byName' ==> (n in byName && byName'[n] == byName[n]) || BaseDir(g, {b}, n, byName'[n])
    requires forall e :: e in g.entries(b) && e.mode.Directory? ==> e.name in byName'
    ensures NamesOk(g, bases + {b}, byName') && BaseIds(g, bases + {b}) == BaseIds(g, bases) + EntryIds(g.entries(b))
  {
    forall n | n in byName' ensures BaseDir(g, bases + {b}, n, byName'[n]) {
      if n in byName && byName'[n] == byName[n] {
        var c, e :| c in bases && e in g.entries(c) && e.mode.Directory? && e.name == n && e.oid == byName'[n];
        assert c in bases + {b};
      } else {
        var c, e :| c in {b} && e in g.entries(c) && e.mode.Directory? && e.name == n && e.oid == byName'[n];
        assert c in bases + {b};
      }
    }
  }

  /** Every entry of t is the client's, or has been taken up, or is a gitlink. */
  ghost predicate Expanded(g: Graph, acks: set<Sha>, t: Sha, seen: set<Sha>) {
    forall e :: e in g.entries(t) ==> e.mode.Gitlink? || Held(g, acks, e.oid) || e.oid in seen
  }

  method AllBases(g: Graph, bases: set<Sha>) returns (had: set<Sha>, byName: map<string, Sha>)
    ensures had == BaseIds(g, bases) && NamesOk(g, bases, byName)
  {
    hide NamesOk, BaseIds;
    had, byName := {}, map[];
    var todo := bases;
    NoBases(g);
    while todo != {}
      invariant todo <= bases && had == BaseIds(g, bases - todo) && NamesOk(g, bases - todo, byName)
      decreases todo
    {
      var b :| b in todo;
      assert bases - (todo - {b}) == (bases - todo) + {b};
      had, byName := BaseEntries(g, b, had, byName, bases - todo);
      todo := todo - {b};
    }
    assert bases - {} == bases;
  }

  lemma NoBases(g: Graph)
    ensures forall bases: set<Sha> :: BaseIds(g, bases - bases) == {} && NamesOk(g, bases - bases, map[])
  {
    forall bases: set<Sha> ensures BaseIds(g, bases - bases) == {} && NamesOk(g, bases - bases, map[]) {
      assert bases - bases == {};
    }
  }

  /** What the client holds it holds with all entries. */
  lemma BasesHeld(g: Graph, acks: set<Sha>, bases: set<Sha>, had: set<Sha>, byName: map<string, Sha>)
    requires WellTyped(g) && forall b :: b in bases ==> g.kind(b).Tree? && Held(g, acks, b)
    requires had == BaseIds(g, bases) && NamesOk(g, bases, byName)
    ensures BasesOk(g, acks, had, byName)
  {
    hide Held;
    forall x | x in had ensures Held(g, acks, x) || g.kind(x).Commit? {
      var b, e :| b in bases && e in g.entries(b) && e.oid == x;
      if !e.mode.Gitlink? {
        assert Links(g, b, x);
        HeldStep(g, acks, b, x);
      }
    }
    forall n | n in byName ensures g.kind(byName[n]).Tree? && Held(g, acks, byName[n]) {
      var b, e :| b in bases && e in g.entries(b) && e.mode.Directory? && e.name == n && e.oid == byName[n];
      assert Links(g, b, byName[n]);
      HeldStep(g, acks, b, byName[n]);
    }
  }

  /** What is new in `seen` is queued: trees as items, blobs as blobs. */
  ghost predicate TakenUp(g: Graph, seen: set<Sha>, seen': set<Sha>, next: seq<Item>, blobs: set<Sha>) {
    && seen <= seen'
    && (forall x :: x in seen' && x !in seen ==>
      (g.kind(x).Tree? && Listed(next, x)) || (g.kind(x).Blob? && x in blobs))
    && (forall x :: x in blobs ==> g.kind(x).Blob?)
    && (next != [] ==> |seen| < |seen'|)
  }

  ghost predicate BasesOk(g: Graph, acks: set<Sha>, had: set<Sha>, byName: map<string, Sha>) {
    && (forall x :: x in had ==> Held(g, acks, x) || g.kind(x).Commit?)
    && (forall n :: n in byName ==> g.kind(byName[n]).Tree? && Held(g, acks, byName[n]))
  }

  ghost predicate TypedEntry(g: Graph, e: TreeEntry) {
    && (e.mode.Directory? ==> g.kind(e.oid).Tree?)
    && (e.mode.File? ==> g.kind(e.oid).Blob?)
  }

  /** The entries to take up: not gitlinks, and in none of the bases. */
  function News(es: seq<TreeEntry>, had: set<Sha>): set<Sha> {
    set e | e in es && !e.mode.Gitlink? && e.oid !in had :: e.oid
  }

  lemma NewsSnoc(es: seq<TreeEntry>, e: TreeEntry, had: set<Sha>)
    ensures News(es + [e], had) == News(es, had) + News([e], had)
  {
  }

  /** A subtree is compared with a directory of its name, if one of the bases has any. */
  ghost predicate Counterpart(g: Graph, bases: set<Sha>, name: string, against: set<Sha>) {
    && (forall d :: d in against ==> BaseDir(g, bases, name, d))
    && (against == {} ==> forall d :: !BaseDir(g, bases, name, d))
  }

  ghost predicate Queues(g: Graph, it: Item, sub: Item) {
    exists e :: e in g.entries(it.tree) && e.mode.Directory? && e.oid == sub.tree
      && Counterpart(g, it.bases, e.name, sub.bases)
  }

  /** What a tree queues are its entries. */
  ghost predicate FromTree(g: Graph, it: Item, next: seq<Item>, blobs: set<Sha>) {
    && (forall i :: 0 <= i < |next| ==> Queues(g, it, next[i]))
    && (forall x :: x in blobs ==> EntryOf(g, it.tree, x))
  }

  lemma CounterpartOf(g: Graph, bases: set<Sha>, name: string, byName: map<string, Sha>)
    requires NamesOk(g, bases, byName)
    ensures Counterpart(g, bases, name, if name in byName then {byName[name]} else {})
  {
  }

  /** One entry: skipped if it is a gitlink, the client's or taken up already; else queued. */
  method TakeEntry(g: Graph, ghost acks: set<Sha>, ghost it: Item, e: TreeEntry, had: set<Sha>,
                   byName: map<string, Sha>, ghost seen: set<Sha>, seen1: set<Sha>, next: seq<Item>, blobs: set<Sha>)
    returns (seen': set<Sha>, next': seq<Item>, blobs': set<Sha>, ok: bool)
    requires TypedEntry(g, e) && BasesOk(g, acks, had, byName) && e in g.entries(it.tree)
    requires NamesOk(g, it.bases, byName) && FromTree(g, it, next, blobs)
    requires TakenUp(g, seen, seen1, next, blobs) && ItemsOk(g, acks, next)
    ensures ok ==> TakenUp(g, seen, seen', next', blobs') && ItemsOk(g, acks, next') && FromTree(g, it, next', blobs')
    ensures ok ==> e.mode.Gitlink? || Held(g, acks, e.oid) || e.oid in seen'
    ensures seen' == seen1 + News([e], had)
    ensures ok <==> seen' == seen1 || |seen'| <= MAX_OBJECTS
  {
    hide Held, NamesOk, Counterpart;
    seen', next', blobs', ok := seen1, next, blobs, true;
    assert News([e], had) == if e.mode.Gitlink? || e.oid in had then {} else {e.oid};
    if e.mode.Gitlink? || e.oid in had || e.oid in seen1 { return; }
    seen' := seen1 + {e.oid};
    if |seen'| > MAX_OBJECTS {
      assert e.oid in seen' && e.oid !in seen1;
      return seen', next, blobs, false;
    }
    if e.mode.Directory? {
      var item := Item(e.oid, if e.name in byName then {byName[e.name]} else {});
      TakeTree(g, seen, seen1, next, blobs, item);
      CounterpartOf(g, it.bases, e.name, byName);
      assert Queues(g, it, item);
      next' := next + [item];
    } else {
      TakeBlob(g, seen, seen1, next, blobs, e.oid);
      assert EntryOf(g, it.tree, e.oid);
      blobs' := blobs + {e.oid};
    }
  }

  /** Exactly the entries that no base lists are taken up. It is refused only by the limit, and
      only for an entry not taken up before. */
  method ExpandTree(g: Graph, ghost acks: set<Sha>, it: Item, seen: set<Sha>)
    returns (seen': set<Sha>, next: seq<Item>, blobs: set<Sha>, ok: bool)
    requires WellTyped(g) && ItemOk(g, acks, it)
    ensures ok ==> Expanded(g, acks, it.tree, seen') && TakenUp(g, seen, seen', next, blobs) && ItemsOk(g, acks, next)
    ensures ok ==> FromTree(g, it, next, blobs) && seen' == seen + News(g.entries(it.tree), BaseIds(g, it.bases))
    ensures ok ==> seen' == seen || |seen'| <= MAX_OBJECTS
    ensures !ok ==> seen < seen' <= seen + News(g.entries(it.tree), BaseIds(g, it.bases)) && |seen'| > MAX_OBJECTS
  {
    hide Held, TakenUp, FromTree, NamesOk, BasesOk, News, BaseIds, ItemsOk;
    var had, byName := AllBases(g, it.bases);
    BasesHeld(g, acks, it.bases, had, byName);
    seen', next, blobs, ok := seen, [], {}, true;
    var es := g.entries(it.tree);
    NothingTaken(g, acks, it, seen, had);
    for i := 0 to |es|
      invariant ok && TakenUp(g, seen, seen', next, blobs) && ItemsOk(g, acks, next) && FromTree(g, it, next, blobs)
      invariant forall j :: 0 <= j < i ==> es[j].mode.Gitlink? || Held(g, acks, es[j].oid) || es[j].oid in seen'
      invariant seen' == seen + News(es[..i], had) && (seen' == seen || |seen'| <= MAX_OBJECTS)
    {
      assert es[i] in g.entries(it.tree) && es[..i + 1] == es[..i] + [es[i]];
      NewsSnoc(es[..i], es[i], had);
      ghost var was := seen';
      seen', next, blobs, ok := TakeEntry(g, acks, it, es[i], had, byName, seen, seen', next, blobs);
      if !ok {
        NewsWithin(es, i + 1, had);
        assert was < seen';
        return;
      }
    }
    assert es[..|es|] == es;
  }

  lemma NothingTaken(g: Graph, acks: set<Sha>, it: Item, seen: set<Sha>, had: set<Sha>)
    ensures TakenUp(g, seen, seen, [], {}) && FromTree(g, it, [], {}) && ItemsOk(g, acks, [])
    ensures seen + News([], had) == seen
  {
  }

  lemma NewsWithin(es: seq<TreeEntry>, i: nat, had: set<Sha>)
    requires i <= |es|
    ensures News(es[..i], had) <= News(es, had)
  {
  }

  lemma TakeTree(g: Graph, seen: set<Sha>, seen': set<Sha>, next: seq<Item>, blobs: set<Sha>, it: Item)
    requires TakenUp(g, seen, seen', next, blobs) && g.kind(it.tree).Tree? && it.tree !in seen'
    ensures TakenUp(g, seen, seen' + {it.tree}, next + [it], blobs)
  {
    assert seen < seen' + {it.tree};
    Fewer(seen, seen' + {it.tree});
    forall x | x in seen' + {it.tree} && x !in seen
      ensures (g.kind(x).Tree? && Listed(next + [it], x)) || (g.kind(x).Blob? && x in blobs)
    {
      if x == it.tree { assert [it][0].tree == x; }
      if Listed(next, x) || x == it.tree { ListedMore(next, [it], x); }
    }
  }

  lemma TakeBlob(g: Graph, seen: set<Sha>, seen': set<Sha>, next: seq<Item>, blobs: set<Sha>, b: Sha)
    requires TakenUp(g, seen, seen', next, blobs) && g.kind(b).Blob? && b !in seen'
    ensures TakenUp(g, seen, seen' + {b}, next, blobs + {b})
  {
    Fewer(seen, seen' + {b});
  }

  /** Trees marked and expanded, and all the ids taken up. */
  datatype Sending = Sending(marked: set<Sha>, expanded: set<Sha>, seen: set<Sha>)

  ghost predicate ExpandedOk(g: Graph, acks: set<Sha>, s: Sending) {
    forall t :: t in s.expanded ==> g.kind(t).Tree? && t in s.marked && Expanded(g, acks, t, s.seen)
  }

  /** What was taken up is done or queued. */
  ghost predicate SeenOk(g: Graph, s: Sending, items: seq<Item>, next: seq<Item>, blobs: set<Sha>) {
    forall x :: x in s.seen ==>
      && (g.kind(x).Tree? ==> x in s.expanded || Listed(items, x) || Listed(next, x))
      && (g.kind(x).Blob? ==> x in s.marked || x in blobs)
  }

  lemma ListedHead(items: seq<Item>, t: Sha)
    requires items != [] && Listed(items, t)
    ensures t == items[0].tree || Listed(items[1..], t)
  {
    var i :| 0 <= i < |items| && items[i].tree == t;
    if i > 0 { assert items[1..][i - 1].tree == t; }
  }

  lemma ItemDone(g: Graph, acks: set<Sha>, s: Sending, items: seq<Item>, next: seq<Item>, blobs: set<Sha>,
                 seen': set<Sha>, more: seq<Item>, moreBlobs: set<Sha>)
    requires items != [] && ExpandedOk(g, acks, s) && SeenOk(g, s, items, next, blobs)
    requires g.kind(items[0].tree).Tree? && Expanded(g, acks, items[0].tree, seen')
    requires TakenUp(g, s.seen, seen', more, moreBlobs)
    ensures var s' := Sending(s.marked + {items[0].tree}, s.expanded + {items[0].tree}, seen');
      ExpandedOk(g, acks, s') && SeenOk(g, s', items[1..], next + more, blobs + moreBlobs)
  {
    var s' := Sending(s.marked + {items[0].tree}, s.expanded + {items[0].tree}, seen');
    forall x | x in seen' && g.kind(x).Tree?
      ensures x in s'.expanded || Listed(items[1..], x) || Listed(next + more, x) {
      if x in s.seen {
        if Listed(items, x) { ListedHead(items, x); }
        if Listed(next, x) { ListedMore(next, more, x); }
      } else {
        ListedMore(next, more, x);
      }
    }
  }

  /** The walk marks live trees and blobs below the roots. */
  ghost predicate Adds(g: Graph, acks: set<Sha>, wants: seq<Sha>, marked: set<Sha>, marked': set<Sha>) {
    && marked <= marked'
    && forall x :: x in marked' && x !in marked ==>
         (g.kind(x).Tree? || g.kind(x).Blob?) && g.live(x) && Below(g, acks, wants, x)
  }

  ghost predicate AllBelow(g: Graph, acks: set<Sha>, wants: seq<Sha>, items: seq<Item>, blobs: set<Sha>) {
    && (forall i :: 0 <= i < |items| ==> Below(g, acks, wants, items[i].tree))
    && (forall x :: x in blobs ==> Below(g, acks, wants, x))
  }

  /** Taken up are the seeds, and entries below the roots. */
  ghost predicate SeenTaken(g: Graph, acks: set<Sha>, wants: seq<Sha>, seen: set<Sha>) {
    AllTaken(g, acks, wants, false, seen) && forall x :: Seeded(g, wants, x) ==> x in seen
  }

  lemma TreeBelow(g: Graph, acks: set<Sha>, wants: seq<Sha>, it: Item, next: seq<Item>, blobs: set<Sha>)
    requires Below(g, acks, wants, it.tree) && g.kind(it.tree).Tree? && FromTree(g, it, next, blobs)
    ensures AllBelow(g, acks, wants, next, blobs)
  {
    hide Below, Within, Counterpart, EntryOf;
    forall i | 0 <= i < |next| ensures Below(g, acks, wants, next[i].tree) {
      assert Queues(g, it, next[i]);
      QueuedEntry(g, it, next[i]);
      WithinBelow(g, acks, wants, it.tree, next[i].tree);
    }
    forall x | x in blobs ensures Below(g, acks, wants, x) { WithinBelow(g, acks, wants, it.tree, x); }
  }

  lemma QueuedEntry(g: Graph, it: Item, sub: Item)
    requires Queues(g, it, sub)
    ensures EntryOf(g, it.tree, sub.tree)
  {
    hide Counterpart;
  }

  lemma NewsTaken(g: Graph, acks: set<Sha>, wants: seq<Sha>, it: Item, seen: set<Sha>, seen': set<Sha>)
    requires Below(g, acks, wants, it.tree) && g.kind(it.tree).Tree? && SeenTaken(g, acks, wants, seen)
    requires seen <= seen' <= seen + News(g.entries(it.tree), BaseIds(g, it.bases))
    ensures SeenTaken(g, acks, wants, seen')
    ensures seen < seen' && |seen'| > MAX_OBJECTS ==> ManyObjects(g, acks, wants, false)
  {
    hide Below, Within, Seeded;
    forall x | x in seen' && x !in seen ensures Within(g, acks, wants, x) {
      assert EntryOf(g, it.tree, x);
      WithinBelow(g, acks, wants, it.tree, x);
    }
    if seen < seen' && |seen'| > MAX_OBJECTS {
      var y :| y in seen' && y !in seen;
      assert AllTaken(g, acks, wants, false, seen') && y in seen' && !Seeded(g, wants, y);
      assert !AllSeeded(g, wants, seen');
    }
  }

  lemma ItemAbsent(g: Graph, acks: set<Sha>, wants: seq<Sha>, it: Item)
    requires ItemOk(g, acks, it) && Below(g, acks, wants, it.tree)
    requires !g.live(it.tree) || exists b :: b in it.bases && !g.live(b)
    ensures Refusable(g, acks, wants)
  {
    hide Below, Held;
    if !g.live(it.tree) { assert Absent(g, acks, wants, it.tree); }
  }

  /** What a level keeps. */
  ghost predicate Level(g: Graph, acks: set<Sha>, wants: seq<Sha>, s: Sending, items: seq<Item>, next: seq<Item>,
                        blobs: set<Sha>) {
    && ItemsOk(g, acks, items) && ItemsOk(g, acks, next) && ExpandedOk(g, acks, s) && SeenOk(g, s, items, next, blobs)
    && AllBelow(g, acks, wants, items, {}) && AllBelow(g, acks, wants, next, blobs) && SeenTaken(g, acks, wants, s.seen)
    && forall x :: x in blobs ==> g.kind(x).Blob?
  }

  lemma LevelStep(g: Graph, acks: set<Sha>, wants: seq<Sha>, s: Sending, items: seq<Item>, next: seq<Item>,
                  blobs: set<Sha>, seen': set<Sha>, more: seq<Item>, moreBlobs: set<Sha>)
    requires items != [] && Level(g, acks, wants, s, items, next, blobs)
    requires Expanded(g, acks, items[0].tree, seen') && TakenUp(g, s.seen, seen', more, moreBlobs)
    requires ItemsOk(g, acks, more) && AllBelow(g, acks, wants, more, moreBlobs) && SeenTaken(g, acks, wants, seen')
    ensures var s' := Sending(s.marked + {items[0].tree}, s.expanded + {items[0].tree}, seen');
      Level(g, acks, wants, s', items[1..], next + more, blobs + moreBlobs)
  {
    hide Held, Below, SeenOk, SeenTaken, ExpandedOk, Expanded;
    ItemDone(g, acks, s, items, next, blobs, seen', more, moreBlobs);
  }

  lemma AddsMore(g: Graph, acks: set<Sha>, wants: seq<Sha>, a: set<Sha>, b: set<Sha>, more: set<Sha>)
    requires Adds(g, acks, wants, a, b)
    requires forall x :: x in more ==> (g.kind(x).Tree? || g.kind(x).Blob?) && g.live(x) && Below(g, acks, wants, x)
    ensures Adds(g, acks, wants, a, b + more)
  {
  }

  /** The ids taken up grow, within the limit, and with anything queued. */
  ghost predicate Grows(seen: set<Sha>, seen': set<Sha>, queued: bool) {
    && seen <= seen' && (seen' == seen || |seen'| <= MAX_OBJECTS)
    && |seen| <= |seen'| && (queued ==> |seen| < |seen'|)
  }

  /** One level: mark and expand each tree, then mark the blobs found. */
  method WalkLevel(g: Graph, ghost acks: set<Sha>, items: seq<Item>, s: Sending, ghost wants: seq<Sha>)
    returns (s': Sending, next: seq<Item>, ok: bool)
    requires WellTyped(g) && Level(g, acks, wants, s, items, [], {})
    ensures ok ==> Level(g, acks, wants, s', next, [], {})
    ensures ok ==> Adds(g, acks, wants, s.marked, s'.marked) && s.expanded <= s'.expanded
    ensures ok ==> Grows(s.seen, s'.seen, next != [])
    ensures ok ==> forall i :: 0 <= i < |items| ==> items[i].tree in s'.expanded
    ensures !ok ==> Refusable(g, acks, wants)
  {
    hide Level, Refusable, Below, Held, WellTyped, SeenTaken, Expanded, TakenUp, FromTree, Adds, Grows, News, AllBelow;
    var blobs: set<Sha> := {};
    s', next, ok := s, [], true;
    NothingAdded(g, acks, wants, s);
    for i := 0 to |items|
      invariant ok && Level(g, acks, wants, s', items[i..], next, blobs)
      invariant Adds(g, acks, wants, s.marked, s'.marked) && s.expanded <= s'.expanded
      invariant Grows(s.seen, s'.seen, next != [])
      invariant forall j :: 0 <= j < i ==> items[j].tree in s'.expanded
    {
      var it := items[i];
      assert items[i..][0] == it && items[i..][1..] == items[i + 1..];
      LevelItem(g, acks, wants, s', items[i..], next, blobs);
      if !g.live(it.tree) || exists b :: b in it.bases && !g.live(b) {
        ItemAbsent(g, acks, wants, it);
        return s', next, false;
      }
      var seen', more, moreBlobs;
      seen', more, moreBlobs, ok := ExpandTree(g, acks, it, s'.seen);
      NewsTaken(g, acks, wants, it, s'.seen, seen');
      if !ok {
        OverLimit(g, acks, wants);
        return;
      }
      TreeBelow(g, acks, wants, it, more, moreBlobs);
      LevelStep(g, acks, wants, s', items[i..], next, blobs, seen', more, moreBlobs);
      Grown(g, s.seen, s'.seen, next, seen', more, moreBlobs);
      AddsMore(g, acks, wants, s.marked, s'.marked, {it.tree});
      s' := Sending(s'.marked + {it.tree}, s'.expanded + {it.tree}, seen');
      next, blobs := next + more, blobs + moreBlobs;
    }
    LevelBlobs(g, acks, wants, s', next, blobs);
    if exists b :: b in blobs && !g.live(b) { return s', next, false; }
    AddsMore(g, acks, wants, s.marked, s'.marked, blobs);
    s' := s'.(marked := s'.marked + blobs);
  }

  lemma NothingAdded(g: Graph, acks: set<Sha>, wants: seq<Sha>, s: Sending)
    ensures Adds(g, acks, wants, s.marked, s.marked) && Grows(s.seen, s.seen, false)
  {
  }

  lemma Grown(g: Graph, first: set<Sha>, seen: set<Sha>, next: seq<Item>, seen': set<Sha>, more: seq<Item>,
              moreBlobs: set<Sha>)
    requires Grows(first, seen, next != []) && TakenUp(g, seen, seen', more, moreBlobs)
    requires seen' == seen || |seen'| <= MAX_OBJECTS
    ensures Grows(first, seen', next + more != [])
  {
    Fewer(seen, seen');
  }

  lemma OverLimit(g: Graph, acks: set<Sha>, wants: seq<Sha>)
    requires ManyObjects(g, acks, wants, false)
    ensures Refusable(g, acks, wants)
  {
  }

  lemma LevelItem(g: Graph, acks: set<Sha>, wants: seq<Sha>, s: Sending, items: seq<Item>, next: seq<Item>,
                  blobs: set<Sha>)
    requires items != [] && Level(g, acks, wants, s, items, next, blobs)
    ensures ItemOk(g, acks, items[0]) && Below(g, acks, wants, items[0].tree) && SeenTaken(g, acks, wants, s.seen)
  {
    hide SeenTaken, Below, Held;
  }

  /** With every tree of the level expanded, its blobs are marked, or one is not live. */
  lemma LevelBlobs(g: Graph, acks: set<Sha>, wants: seq<Sha>, s: Sending, next: seq<Item>, blobs: set<Sha>)
    requires Level(g, acks, wants, s, [], next, blobs)
    ensures Level(g, acks, wants, s.(marked := s.marked + blobs), next, [], {})
    ensures forall x :: x in blobs ==> g.kind(x).Blob? && Below(g, acks, wants, x)
    ensures (exists b :: b in blobs && !g.live(b)) ==> Refusable(g, acks, wants)
  {
    hide SeenTaken, Below, Held, Expanded;
    if exists b :: b in blobs && !g.live(b) {
      var b :| b in blobs && !g.live(b);
      assert Absent(g, acks, wants, b);
    }
  }

  /** The tree walk: refused only for something to read that is not live, or too many objects. */
  method WalkTrees(g: Graph, ghost acks: set<Sha>, roots: seq<Item>, s: Sending, ghost wants: seq<Sha>)
    returns (s': Sending, ok: bool)
    requires WellTyped(g) && Level(g, acks, wants, s, roots, [], {})
    ensures ok ==> Level(g, acks, wants, s', [], [], {}) && Adds(g, acks, wants, s.marked, s'.marked)
    ensures ok ==> s'.seen == s.seen || |s'.seen| <= MAX_OBJECTS
    ensures ok ==> forall i :: 0 <= i < |roots| ==> roots[i].tree in s'.expanded
    ensures !ok ==> Refusable(g, acks, wants)
  {
    hide Level, Refusable, Below, WellTyped;
    var items := roots;
    ghost var cap := if |s.seen| > MAX_OBJECTS then |s.seen| else MAX_OBJECTS;
    s', ok := s, true;
    if items != [] {
      s', items, ok := WalkLevel(g, acks, items, s', wants);
      if !ok { return; }
    }
    while items != []
      invariant ok && Level(g, acks, wants, s', items, [], {}) && Adds(g, acks, wants, s.marked, s'.marked)
      invariant |s'.seen| <= cap && (s'.seen == s.seen || |s'.seen| <= MAX_OBJECTS)
      invariant forall i :: 0 <= i < |roots| ==> roots[i].tree in s'.expanded
      decreases cap - |s'.seen|, |items|
    {
      s', items, ok := WalkLevel(g, acks, items, s', wants);
      if !ok { return; }
    }
  }

  // ---- the whole selection ----------------------------------------------------------

  /** What the wants seed: marks, ids taken up, commits and trees to walk, tags to peel. */
  datatype Seeds = Seeds(marked: set<Sha>, seen: set<Sha>, commits: set<Sha>, trees: set<Sha>, tags: set<Sha>)

  /** Everything is what the wants peel to, by kind; marked and taken up are live seeds. */
  ghost predicate SeedsOk(g: Graph, wants: seq<Sha>, s: Seeds) {
    && (forall x :: x in s.commits ==> g.kind(x).Commit? && Peeled(g, wants, x))
    && (forall x :: x in s.trees ==> g.kind(x).Tree? && Peeled(g, wants, x))
    && (forall x :: x in s.tags ==> g.kind(x).Tag? && Peeled(g, wants, x))
    && s.seen == s.marked
    && (forall x :: x in s.marked ==> Seeded(g, wants, x) && g.live(x) && (g.kind(x).Tree? ==> x in s.trees))
  }

  /** x has been taken up by the seeds, as its kind asks; a blob that is not live cannot be. */
  ghost predicate Planted(g: Graph, s: Seeds, x: Sha) {
    match g.kind(x)
    case Commit => x in s.commits
    case Tree => x in s.trees
    case Blob => x in s.marked || !g.live(x)
    case Tag => x in s.tags
  }

  /** Every want must be live. */
  method Seed(g: Graph, wants: seq<Sha>) returns (s: Seeds, ok: bool)
    ensures ok <==> forall x :: x in wants ==> g.live(x)
    ensures ok ==> SeedsOk(g, wants, s) && forall x :: x in wants ==> x in s.marked && Planted(g, s, x)
  {
    hide Peeled;
    s, ok := Seeds({}, {}, {}, {}, {}), true;
    for i := 0 to |wants|
      invariant ok && SeedsOk(g, wants, s) && forall j :: 0 <= j < i ==> wants[j] in s.marked && Planted(g, s, wants[j])
      invariant forall j :: 0 <= j < i ==> g.live(wants[j])
    {
      var x := wants[i];
      assert x in wants;
      if !g.live(x) { return s, false; }
      PeeledWant(g, wants, x);
      s := s.(marked := s.marked + {x}, seen := s.seen + {x});
      match g.kind(x) {
        case Commit => s := s.(commits := s.commits + {x});
        case Tree => s := s.(trees := s.trees + {x});
        case Tag => s := s.(tags := s.tags + {x});
        case Blob =>
      }
    }
  }

  /** Follow the tags down. The tags on the way are not themselves marked; each must be live. */
  method Peel(g: Graph, wants: seq<Sha>, s: Seeds) returns (s': Seeds, ok: bool)
    requires WellTyped(g) && SeedsOk(g, wants, s)
    ensures ok ==> SeedsOk(g, wants, s') && (forall t :: t in s'.tags ==> g.live(t) && Planted(g, s', g.target(t)))
    ensures ok ==> s.marked <= s'.marked && forall x :: Planted(g, s, x) ==> Planted(g, s', x)
    ensures !ok ==> exists t :: Peeled(g, wants, t) && g.kind(t).Tag? && !g.live(t)
  {
    hide SeedsOk, WellTyped;
    s', ok := s, true;
    var todo := s.tags;
    ghost var bound := MaxDepth(g, todo);
    while todo != {}
      invariant ok && SeedsOk(g, wants, s') && s.marked <= s'.marked
      invariant forall x :: Planted(g, s, x) ==> Planted(g, s', x)
      invariant (forall t :: t in todo ==> t in s'.tags && g.depth(t) < bound)
      invariant forall t :: t in s'.tags && t !in todo ==> g.live(t) && Planted(g, s', g.target(t))
      decreases bound
    {
      if exists t :: t in todo && !g.live(t) {
        ghost var t :| t in todo && !g.live(t);
        PeeledTag(g, wants, s', t);
        return s', false;
      }
      s', todo := PeelLevel(g, wants, s', todo, bound);
      bound := bound - 1;
    }
  }

  lemma PeeledTag(g: Graph, wants: seq<Sha>, s: Seeds, t: Sha)
    requires SeedsOk(g, wants, s) && t in s.tags
    ensures Peeled(g, wants, t) && g.kind(t).Tag?
  {
    hide Peeled;
  }

  ghost function MaxDepth(g: Graph, xs: set<Sha>): (d: nat)
    ensures forall x :: x in xs ==> g.depth(x) < d
  {
    if xs == {} then 0 else
      var x :| x in xs;
      var d := MaxDepth(g, xs - {x});
      if g.depth(x) < d then d else g.depth(x) + 1
  }

  /** Take up what a tag points at. */
  method Plant(g: Graph, wants: seq<Sha>, s: Seeds, x: Sha) returns (s': Seeds)
    requires SeedsOk(g, wants, s) && Peeled(g, wants, x)
    ensures SeedsOk(g, wants, s') && s.marked <= s'.marked && Planted(g, s', x)
    ensures forall y :: Planted(g, s, y) ==> Planted(g, s', y)
    ensures s'.tags == if g.kind(x).Tag? then s.tags + {x} else s.tags
  {
    hide Peeled;
    match g.kind(x)
    case Commit => return s.(commits := s.commits + {x});
    case Tree => return s.(trees := s.trees + {x});
    case Tag => return s.(tags := s.tags + {x});
    case Blob => return if g.live(x) then s.(marked := s.marked + {x}, seen := s.seen + {x}) else s;
  }

  method PeelLevel(g: Graph, wants: seq<Sha>, s: Seeds, tags: set<Sha>, ghost bound: nat)
    returns (s': Seeds, next: set<Sha>)
    requires WellTyped(g) && SeedsOk(g, wants, s) && tags != {}
    requires forall t :: t in tags ==> t in s.tags && g.depth(t) < bound && g.live(t)
    requires forall t :: t in s.tags && t !in tags ==> g.live(t) && Planted(g, s, g.target(t))
    ensures SeedsOk(g, wants, s') && s.marked <= s'.marked && (forall x :: Planted(g, s, x) ==> Planted(g, s', x))
    ensures bound > 0 && forall t :: t in next ==> t in s'.tags && g.depth(t) < bound - 1
    ensures forall t :: t in s'.tags && t !in next ==> g.live(t) && Planted(g, s', g.target(t))
  {
    hide SeedsOk, Peeled;
    s', next := s, {};
    var todo := tags;
    while todo != {}
      invariant todo <= tags && SeedsOk(g, wants, s') && s.marked <= s'.marked && s.tags <= s'.tags
      invariant forall x :: Planted(g, s, x) ==> Planted(g, s', x)
      invariant forall t :: t in next ==> t in s'.tags && g.depth(t) < bound - 1
      invariant forall t :: t in s'.tags && t !in next && t !in todo ==> g.live(t) && Planted(g, s', g.target(t))
      decreases todo
    {
      var t :| t in todo;
      todo := todo - {t};
      var x := g.target(t);
      PeeledTag(g, wants, s', t);
      PeeledStep(g, wants, t);
      s' := Plant(g, wants, s', x);
      if g.kind(x).Tag? { next := next + {x}; }
    }
  }

  function WantedCommits(g: Graph, wants: seq<Sha>): set<Sha> {
    set x | x in wants && g.kind(x).Commit?
  }

  /** What a finished selection knows. */
  ghost predicate Selected(g: Graph, acks: set<Sha>, wants: seq<Sha>, seeds: Seeds, w: Walked, s: Sending) {
    && SeedsOk(g, wants, seeds) && (forall t :: t in seeds.tags ==> Planted(g, seeds, g.target(t)))
    && WalkOk(g, acks, w, {}) && seeds.commits <= w.met && seeds.trees <= w.trees && w.sent <= w.met
    && ExpandedOk(g, acks, s) && SeenOk(g, s, [], [], {})
    && seeds.marked <= s.marked && w.sent <= s.marked && w.trees <= s.expanded
  }

  /** .. and what it has checked: all that was read is live, and no limit was passed. */
  ghost predicate Checked(g: Graph, acks: set<Sha>, wants: seq<Sha>, seeds: Seeds, w: Walked, s: Sending) {
    && (forall x :: x in wants ==> g.live(x) && Planted(g, seeds, x))
    && (forall t :: t in seeds.tags ==> g.live(t))
    && AllVisited(g, acks, wants, w.met) && |w.met| <= MAX_COMMITS && (forall c :: c in w.met ==> g.live(c))
    && (forall c :: c in w.sent <==> c in w.met && (c !in acks || c in wants))
    && (forall x :: x in s.marked ==> g.live(x))
    && SeenTaken(g, acks, wants, s.seen) && (|s.seen| <= MAX_OBJECTS || AllSeeded(g, wants, s.seen))
  }

  // ---- refused or not ---------------------------------------------------------------

  lemma {:induction false} PeeledPlanted(g: Graph, wants: seq<Sha>, seeds: Seeds, path: seq<Sha>)
    requires TagPath(g, path) && Planted(g, seeds, path[0])
    requires forall t :: t in seeds.tags ==> Planted(g, seeds, g.target(t))
    ensures Planted(g, seeds, path[|path| - 1])
  {
    if |path| > 1 {
      var init := path[..|path| - 1];
      PeeledPlanted(g, wants, seeds, init);
      assert init[|init| - 1] == path[|path| - 2];
    }
  }

  lemma AllPlanted(g: Graph, acks: set<Sha>, wants: seq<Sha>, seeds: Seeds, w: Walked, s: Sending, x: Sha)
    requires Selected(g, acks, wants, seeds, w, s) && Checked(g, acks, wants, seeds, w, s) && Peeled(g, wants, x)
    ensures Planted(g, seeds, x)
  {
    hide WalkOk, ExpandedOk, SeenOk, SeedsOk, Planted, SeenTaken;
    var path :| TagPath(g, path) && path[0] in wants && path[|path| - 1] == x;
    PeeledPlanted(g, wants, seeds, path);
  }

  lemma VisitedMet(g: Graph, acks: set<Sha>, wants: seq<Sha>, seeds: Seeds, w: Walked, s: Sending, c: Sha)
    requires Selected(g, acks, wants, seeds, w, s) && Checked(g, acks, wants, seeds, w, s) && Visits(g, acks, wants, c)
    ensures c in w.met
  {
    hide ExpandedOk, SeenOk, SeedsOk, SeenTaken, Held, Peeled;
    var path :| CommitPath(g, acks, path) && Peeled(g, wants, path[0]) && g.kind(path[0]).Commit?
      && path[|path| - 1] == c;
    AllPlanted(g, acks, wants, seeds, w, s, path[0]);
    VisitedIn(g, acks, w.met, path);
  }

  lemma RootExpanded(g: Graph, acks: set<Sha>, wants: seq<Sha>, seeds: Seeds, w: Walked, s: Sending, t: Sha)
    requires WellTyped(g) && Selected(g, acks, wants, seeds, w, s) && Checked(g, acks, wants, seeds, w, s)
    requires RootTree(g, acks, wants, t)
    ensures t in s.expanded && g.kind(t).Tree?
  {
    hide SeenOk, SeedsOk, SeenTaken, Held, Peeled, Visits, Expanded;
    if Peeled(g, wants, t) && g.kind(t).Tree? {
      AllPlanted(g, acks, wants, seeds, w, s, t);
    } else {
      var c :| Ships(g, acks, wants, c) && g.tree(c) == t;
      VisitedMet(g, acks, wants, seeds, w, s, c);
    }
  }

  /** What lies below a root is sent or the client's. */
  lemma BelowSent(g: Graph, acks: set<Sha>, wants: seq<Sha>, seeds: Seeds, w: Walked, s: Sending, x: Sha)
    requires WellTyped(g) && Selected(g, acks, wants, seeds, w, s) && Checked(g, acks, wants, seeds, w, s)
    requires Below(g, acks, wants, x)
    ensures Sent(g, acks, w, s, x) || Held(g, acks, x)
  {
    hide WellTyped, Selected, Checked, RootTree, Reaches, Held;
    var t :| RootTree(g, acks, wants, t) && Reaches(g, t, x);
    RootExpanded(g, acks, wants, seeds, w, s, t);
    SentClosure(g, acks, wants, seeds, w, s, t, x);
  }

  lemma SentLive(g: Graph, acks: set<Sha>, wants: seq<Sha>, seeds: Seeds, w: Walked, s: Sending, x: Sha)
    requires Selected(g, acks, wants, seeds, w, s) && Checked(g, acks, wants, seeds, w, s) && Sent(g, acks, w, s, x)
    ensures g.live(x)
  {
    hide SeenOk, SeedsOk, SeenTaken, Held, Visits, Expanded, WalkOk;
  }

  lemma {:induction false} RouteKind(g: Graph, path: seq<Sha>)
    requires WellTyped(g) && Route(g, path) && g.kind(path[0]).Tree?
    ensures g.kind(path[|path| - 1]).Tree? || g.kind(path[|path| - 1]).Blob?
  {
    if |path| > 1 {
      var init := path[..|path| - 1];
      RouteKind(g, init);
      assert Links(g, init[|init| - 1], path[|path| - 1]) by { assert Links(g, path[|path| - 2],
        path[|path| - 2 + 1]); }
    }
  }

  lemma BelowKind(g: Graph, acks: set<Sha>, wants: seq<Sha>, seeds: Seeds, w: Walked, s: Sending, x: Sha)
    requires WellTyped(g) && Selected(g, acks, wants, seeds, w, s) && Checked(g, acks, wants, seeds, w, s)
    requires Below(g, acks, wants, x)
    ensures g.kind(x).Tree? || g.kind(x).Blob?
  {
    hide WellTyped, Selected, Checked, RootTree, Held;
    var t :| RootTree(g, acks, wants, t) && Reaches(g, t, x);
    RootExpanded(g, acks, wants, seeds, w, s, t);
    var path :| Route(g, path) && path[0] == t && path[|path| - 1] == x;
    RouteKind(g, path);
  }

  lemma NoneAbsent(g: Graph, acks: set<Sha>, wants: seq<Sha>, seeds: Seeds, w: Walked, s: Sending, x: Sha)
    requires WellTyped(g) && Selected(g, acks, wants, seeds, w, s) && Checked(g, acks, wants, seeds, w, s)
    requires Absent(g, acks, wants, x)
    ensures x !in wants && Held(g, acks, x) && !g.kind(x).Tag? && !g.kind(x).Commit?
  {
    hide WellTyped, Selected, Held, Visits, Below, Peeled, SeenTaken;
    if Peeled(g, wants, x) && g.kind(x).Tag? {
      AllPlanted(g, acks, wants, seeds, w, s, x);
    } else if Visits(g, acks, wants, x) {
      VisitedMet(g, acks, wants, seeds, w, s, x);
    } else {
      BelowKind(g, acks, wants, seeds, w, s, x);
      BelowSent(g, acks, wants, seeds, w, s, x);
      if Sent(g, acks, w, s, x) { SentLive(g, acks, wants, seeds, w, s, x); }
    }
  }

  lemma FewCommits(g: Graph, acks: set<Sha>, wants: seq<Sha>, seeds: Seeds, w: Walked, s: Sending)
    requires Selected(g, acks, wants, seeds, w, s) && Checked(g, acks, wants, seeds, w, s)
    ensures !ManyCommits(g, acks, wants)
  {
    hide Selected, Visits, SeenTaken;
    if ManyCommits(g, acks, wants) {
      var xs :| AllVisited(g, acks, wants, xs) && |xs| > 200_000;
      forall x | x in xs ensures x in w.met { VisitedMet(g, acks, wants, seeds, w, s, x); }
      Fewer(xs, w.met);
    }
  }

  lemma WithinSeen(g: Graph, acks: set<Sha>, wants: seq<Sha>, seeds: Seeds, w: Walked, s: Sending, x: Sha)
    requires WellTyped(g) && Selected(g, acks, wants, seeds, w, s) && Checked(g, acks, wants, seeds, w, s)
    requires Within(g, acks, wants, x) && !Held(g, acks, x)
    ensures x in s.seen
  {
    hide WellTyped, Checked, Held, Below, SeenOk, SeedsOk, WalkOk;
    var t :| Below(g, acks, wants, t) && g.kind(t).Tree? && EntryOf(g, t, x);
    var e :| e in g.entries(t) && !e.mode.Gitlink? && e.oid == x;
    if Held(g, acks, t) { HeldStep(g, acks, t, x); }
    BelowSent(g, acks, wants, seeds, w, s, t);
  }

  lemma FewObjects(g: Graph, acks: set<Sha>, wants: seq<Sha>, seeds: Seeds, w: Walked, s: Sending)
    requires WellTyped(g) && Selected(g, acks, wants, seeds, w, s) && Checked(g, acks, wants, seeds, w, s)
    ensures !ManyObjects(g, acks, wants, true)
  {
    hide WellTyped, Selected, Held, Seeded, Within, Visits;
    if ManyObjects(g, acks, wants, true) {
      var xs :| AllTaken(g, acks, wants, true, xs) && |xs| > 1_000_000 && !AllSeeded(g, wants, xs);
      forall x | x in xs ensures x in s.seen {
        if !Seeded(g, wants, x) { WithinSeen(g, acks, wants, seeds, w, s, x); }
      }
      Fewer(xs, s.seen);
    }
  }

  /** What is answered was not to be refused. */
  lemma NotRefused(g: Graph, acks: set<Sha>, wants: seq<Sha>, seeds: Seeds, w: Walked, s: Sending)
    requires WellTyped(g) && Selected(g, acks, wants, seeds, w, s) && Checked(g, acks, wants, seeds, w, s)
    ensures !Refused(g, acks, wants)
  {
    hide WellTyped, Selected, Checked, Held, Absent, ManyCommits, ManyObjects;
    FewCommits(g, acks, wants, seeds, w, s);
    FewObjects(g, acks, wants, seeds, w, s);
    forall x | Absent(g, acks, wants, x)
      ensures x !in wants && Held(g, acks, x) && !g.kind(x).Tag? && !g.kind(x).Commit?
    {
      NoneAbsent(g, acks, wants, seeds, w, s, x);
    }
  }

  // ---- complete or not --------------------------------------------------------------

  /** The objects whose links are all accounted for. */
  ghost predicate Settled(g: Graph, acks: set<Sha>, seeds: Seeds, w: Walked, s: Sending, x: Sha) {
    match g.kind(x)
    case Commit => x in w.met && x !in acks
    case Tree => x in s.expanded
    case Blob => x in s.marked || !g.live(x)
    case Tag => x in seeds.tags
  }

  ghost function SettledSet(g: Graph, acks: set<Sha>, seeds: Seeds, w: Walked, s: Sending): set<Sha> {
    var targets := set t | t in seeds.tags :: g.target(t);
    set x | x in w.met + s.expanded + s.marked + seeds.tags + targets && Settled(g, acks, seeds, w, s, x)
  }

  /** Below commits and trees every blob is marked. */
  ghost predicate Sent(g: Graph, acks: set<Sha>, w: Walked, s: Sending, x: Sha) {
    match g.kind(x)
    case Commit => x in w.met && x !in acks
    case Tree => x in s.expanded
    case Blob => x in s.marked
    case Tag => false
  }

  lemma SentLink(g: Graph, acks: set<Sha>, wants: seq<Sha>, seeds: Seeds, w: Walked, s: Sending, x: Sha, y: Sha)
    requires WellTyped(g) && Selected(g, acks, wants, seeds, w, s) && Sent(g, acks, w, s, x) && Links(g, x, y)
    ensures Sent(g, acks, w, s, y) || Held(g, acks, y)
  {
    match g.kind(x)
    case Commit =>
      if y in g.parents(x) && y in acks { HeldSelf(g, acks, y); }
    case Tree =>
      var e :| e in g.entries(x) && !e.mode.Gitlink? && e.oid == y;
    case Blob =>
  }

  lemma SentClosure(g: Graph, acks: set<Sha>, wants: seq<Sha>, seeds: Seeds, w: Walked, s: Sending, x: Sha, y: Sha)
    requires WellTyped(g) && Selected(g, acks, wants, seeds, w, s) && Reaches(g, x, y)
    requires Sent(g, acks, w, s, x) || Held(g, acks, x)
    ensures Sent(g, acks, w, s, y) || Held(g, acks, y)
  {
    var done := set z | z in w.met + s.expanded + s.marked && Sent(g, acks, w, s, z);
    forall a, b | a in done && Links(g, a, b) ensures b in done || Held(g, acks, b) {
      SentLink(g, acks, wants, seeds, w, s, a, b);
    }
    ClosureCovered(g, acks, done, x, y);
  }

  lemma PlantedSettled(g: Graph, acks: set<Sha>, wants: seq<Sha>, seeds: Seeds, w: Walked, s: Sending, x: Sha)
    requires Selected(g, acks, wants, seeds, w, s) && Planted(g, seeds, x)
    ensures Settled(g, acks, seeds, w, s, x) || Held(g, acks, x)
  {
    if g.kind(x).Commit? && x in acks { HeldSelf(g, acks, x); }
  }

  lemma SettledLink(g: Graph, acks: set<Sha>, wants: seq<Sha>, seeds: Seeds, w: Walked, s: Sending, x: Sha, y: Sha)
    requires WellTyped(g) && Selected(g, acks, wants, seeds, w, s) && Settled(g, acks, seeds, w, s, x) && Links(g, x, y)
    ensures Settled(g, acks, seeds, w, s, y) || Held(g, acks, y)
  {
    match g.kind(x)
    case Commit =>
      if y in g.parents(x) && y in acks { HeldSelf(g, acks, y); }
    case Tree =>
      var e :| e in g.entries(x) && !e.mode.Gitlink? && e.oid == y;
    case Tag =>
      PlantedSettled(g, acks, wants, seeds, w, s, y);
    case Blob =>
  }

  /** Everything reachable from a settled object is settled or the client's. */
  lemma SettledClosure(g: Graph, acks: set<Sha>, wants: seq<Sha>, seeds: Seeds, w: Walked, s: Sending, x: Sha, y: Sha)
    requires WellTyped(g) && Selected(g, acks, wants, seeds, w, s) && Reaches(g, x, y)
    requires Settled(g, acks, seeds, w, s, x) || Held(g, acks, x)
    ensures Settled(g, acks, seeds, w, s, y) || Held(g, acks, y)
  {
    var done := SettledSet(g, acks, seeds, w, s) + (if Settled(g, acks, seeds, w, s, x) then {x} else {});
    forall a, b | a in done && Links(g, a, b) ensures b in done || Held(g, acks, b) {
      SettledLink(g, acks, wants, seeds, w, s, a, b);
    }
    ClosureCovered(g, acks, done, x, y);
  }

  /** The closure of x will be the client's: sent, or held already. */
  ghost predicate Complete(g: Graph, acks: set<Sha>, marked: set<Sha>, x: Sha) {
    forall y :: Reaches(g, x, y) ==> y in marked || Held(g, acks, y)
  }

  /** A sent commit arrives whole. */
  lemma SentComplete(g: Graph, acks: set<Sha>, wants: seq<Sha>, seeds: Seeds, w: Walked, s: Sending, c: Sha)
    requires WellTyped(g) && Selected(g, acks, wants, seeds, w, s) && c in w.sent
    ensures Complete(g, acks, s.marked, c)
  {
    if c in acks { HeldSelf(g, acks, c); }
    forall y | Reaches(g, c, y) ensures y in s.marked || Held(g, acks, y) {
      SentClosure(g, acks, wants, seeds, w, s, c, y);
    }
  }

  /** y is not sent on the way to a wanted object: a tag that was not wanted itself, or a
      tag's blob that is not live. */
  ghost predicate Omitted(g: Graph, wants: seq<Sha>, y: Sha) {
    (g.kind(y).Tag? && y !in wants) || (g.kind(y).Blob? && !g.live(y))
  }

  /** A wanted object arrives whole exactly when everything omitted in its closure is the
      client's. */
  lemma WantComplete(g: Graph, acks: set<Sha>, wants: seq<Sha>, seeds: Seeds, w: Walked, s: Sending, x: Sha)
    requires WellTyped(g) && Selected(g, acks, wants, seeds, w, s) && x in wants && Planted(g, seeds, x)
    requires forall t :: t in s.marked && g.kind(t).Tag? ==> t in wants
    requires (forall b :: b in s.marked && g.kind(b).Blob? ==> g.live(b)) && forall t :: t in wants ==> t in s.marked
    ensures Complete(g, acks, s.marked, x) <==>
      forall y :: Reaches(g, x, y) && Omitted(g, wants, y) ==> Held(g, acks, y)
  {
    PlantedSettled(g, acks, wants, seeds, w, s, x);
    forall y | Reaches(g, x, y) && !Omitted(g, wants, y) ensures y in s.marked || Held(g, acks, y) {
      SettledClosure(g, acks, wants, seeds, w, s, x, y);
    }
  }

  /** So a tag of a tag, wanted alone by a client with nothing, arrives broken. */
  lemma NestedTagIncomplete(g: Graph, wants: seq<Sha>, seeds: Seeds, w: Walked, s: Sending, x: Sha)
    requires WellTyped(g) && Selected(g, {}, wants, seeds, w, s) && wants == [x] && Planted(g, seeds, x)
    requires x in s.marked
    requires forall b :: b in s.marked && g.kind(b).Blob? ==> g.live(b)
    requires forall t :: t in s.marked && g.kind(t).Tag? ==> t in wants
    requires g.kind(x).Tag? && g.kind(g.target(x)).Tag?
    ensures !Complete(g, {}, s.marked, x)
  {
    var t := g.target(x);
    WantComplete(g, {}, wants, seeds, w, s, x);
    assert Route(g, [x, t]) && [x, t][0] == x && [x, t][1] == t;
    assert Reaches(g, x, t) && t !in wants;
  }

  /** Any 64 of them, or all: the source takes the first in the order of the ids. */
  method Truncate(xs: set<Sha>) returns (r: set<Sha>)
    ensures r <= xs && |r| == if |xs| <= 64 then |xs| else 64
  {
    r := {};
    var rest := xs;
    while |r| < 64 && rest != {}
      invariant r <= xs && rest == xs - r && |r| <= 64 && |xs| == |r| + |rest|
      decreases rest
    {
      var x :| x in rest;
      r, rest := r + {x}, rest - {x};
    }
  }

  /** The trees the roots are pruned against: those of commits the client has, at most 64. */
  method PickBases(g: Graph, acks: set<Sha>, w: Walked) returns (bases: set<Sha>)
    requires WellTyped(g) && WalkOk(g, acks, w, {})
    ensures forall b :: b in bases ==> g.kind(b).Tree? && Held(g, acks, b)
    ensures forall b :: b in bases ==> b in w.bases || exists e :: e in w.edge && g.tree(e) == b
    ensures |w.edge| <= 64 && |w.bases + (set e | e in w.edge :: g.tree(e))| <= 64 ==>
      bases == w.bases + (set e | e in w.edge :: g.tree(e))
    ensures w.bases != {} || w.edge != {} ==> bases != {}
  {
    hide WalkOk;
    BasesOf(g, acks, w);
    var edge := Truncate(w.edge);
    if |w.edge| <= 64 { Same(edge, w.edge); }
    var all := w.bases + set e | e in edge :: g.tree(e);
    if edge != {} {
      var e :| e in edge;
      assert g.tree(e) in all;
    }
    bases := Truncate(all);
    if |all| <= 64 { Same(bases, all); }
  }

  lemma Same(a: set<Sha>, b: set<Sha>)
    requires a <= b && |a| == |b|
    ensures a == b
  {
    Fewer(a, b);
  }

  lemma BasesOf(g: Graph, acks: set<Sha>, w: Walked)
    requires WellTyped(g) && WalkOk(g, acks, w, {})
    ensures forall b :: b in w.bases ==> g.kind(b).Tree? && Held(g, acks, b)
    ensures forall e :: e in w.edge ==> g.kind(g.tree(e)).Tree? && Held(g, acks, g.tree(e))
  {
    hide Held;
    forall e | e in w.edge ensures Held(g, acks, g.tree(e)) {
      HeldSelf(g, acks, e);
      HeldStep(g, acks, e, g.tree(e));
    }
  }

  lemma RootsLevel(g: Graph, acks: set<Sha>, wants: seq<Sha>, seeds: Seeds, w: Walked, roots: seq<Item>, s: Sending)
    requires SeedsOk(g, wants, seeds) && ItemsOk(g, acks, roots) && seeds.trees <= w.trees
    requires s.seen == seeds.seen && s.expanded == {} && seeds.marked <= s.marked
    requires forall x :: Seeded(g, wants, x) ==> x in seeds.seen
    requires forall t :: t in w.trees ==> RootTree(g, acks, wants, t) && Listed(roots, t)
    requires forall i :: 0 <= i < |roots| ==> roots[i].tree in w.trees
    ensures Level(g, acks, wants, s, roots, [], {})
  {
    hide Held, Peeled, RootTree, Below, Within, Listed;
    forall i | 0 <= i < |roots| ensures Below(g, acks, wants, roots[i].tree) {
      BelowRoot(g, acks, wants, roots[i].tree);
    }
  }

  /** The trees the commit walk collects are roots. */
  lemma WalkedRoots(g: Graph, acks: set<Sha>, wants: seq<Sha>, seeds: Seeds, wanted: set<Sha>, w: Walked)
    requires SeedsOk(g, wants, seeds) && WalkExact(g, acks, wanted, seeds.trees, w)
    requires AllVisited(g, acks, wants, w.met) && forall c :: c in wanted ==> c in wants
    ensures forall t :: t in w.trees ==> RootTree(g, acks, wants, t)
  {
    hide Peeled, Visits;
    forall t | t in w.trees ensures RootTree(g, acks, wants, t) {
      if t !in seeds.trees {
        var c :| c in w.met && (c !in acks || c in wanted) && g.tree(c) == t;
        assert Ships(g, acks, wants, c);
      }
    }
  }

  lemma SeedsTaken(g: Graph, wants: seq<Sha>, seeds: Seeds)
    requires SeedsOk(g, wants, seeds) && (forall t :: t in seeds.tags ==> Planted(g, seeds, g.target(t)))
    requires forall x :: x in wants ==> x in seeds.marked && Planted(g, seeds, x)
    ensures forall x :: Seeded(g, wants, x) ==> x in seeds.seen
  {
    hide SeedsOk;
    forall x | Seeded(g, wants, x) && x !in wants ensures x in seeds.marked {
      var path :| TagPath(g, path) && path[0] in wants && path[|path| - 1] == x;
      PeeledPlanted(g, wants, seeds, path);
    }
    assert seeds.seen == seeds.marked by { SeedsSame(g, wants, seeds); }
  }

  lemma SeedsSame(g: Graph, wants: seq<Sha>, seeds: Seeds)
    requires SeedsOk(g, wants, seeds)
    ensures seeds.seen == seeds.marked
  {
  }

  method Select(g: Graph, wants: seq<Sha>, acks: set<Sha>) returns (seeds: Seeds, w: Walked, s: Sending, ok: bool)
    requires WellTyped(g)
    ensures ok ==> Selected(g, acks, wants, seeds, w, s) && Checked(g, acks, wants, seeds, w, s)
    ensures ok ==> forall x :: x in wants ==> x in s.marked
    ensures ok ==> forall x :: x in s.marked ==> AskedFor(g, acks, wants, x)
    ensures !ok ==> Refusable(g, acks, wants)
  {
    hide SeedsOk, WalkOk, WalkExact, Level, WellTyped, Planted, Refusable, RootTree, Below, Ships, Seeded, Selected,
      Checked;
    w, s := Walked({}, {}, {}, {}, {}), Sending({}, {}, {});
    seeds, ok := Seed(g, wants);
    if !ok {
      WantAbsent(g, acks, wants);
      return;
    }
    seeds, ok := Peel(g, wants, seeds);
    if !ok {
      TagAbsent(g, acks, wants);
      return;
    }
    var wanted := WantedCommits(g, wants);
    TipsVisited(g, acks, wants, seeds);
    w, ok := WalkCommits(g, acks, wanted, seeds.commits, seeds.trees, wants);
    if !ok {
      CommitAbsent(g, acks, wants);
      return;
    }
    var bases := PickBases(g, acks, w);
    TreesTyped(g, acks, w);
    var roots := Roots(g, acks, w.trees, bases);
    var start := Sending(seeds.marked + w.sent, {}, seeds.seen);
    WalkedRoots(g, acks, wants, seeds, wanted, w);
    SeedsTaken(g, wants, seeds);
    WalkedWithin(g, acks, wanted, seeds.trees, w);
    RootsLevel(g, acks, wants, seeds, w, roots, start);
    s, ok := WalkTrees(g, acks, roots, start, wants);
    if !ok { return; }
    forall t | t in w.trees ensures t in s.expanded { assert Listed(roots, t); }
    AllSelected(g, acks, wants, seeds, w, s);
    AllChecked(g, acks, wants, seeds, w, s);
  }

  lemma WantAbsent(g: Graph, acks: set<Sha>, wants: seq<Sha>)
    requires exists x :: x in wants && !g.live(x)
    ensures Refusable(g, acks, wants)
  {
    var x :| x in wants && !g.live(x);
    assert Absent(g, acks, wants, x);
  }

  lemma TagAbsent(g: Graph, acks: set<Sha>, wants: seq<Sha>)
    requires exists t :: Peeled(g, wants, t) && g.kind(t).Tag? && !g.live(t)
    ensures Refusable(g, acks, wants)
  {
    var t :| Peeled(g, wants, t) && g.kind(t).Tag? && !g.live(t);
    assert Absent(g, acks, wants, t);
  }

  lemma CommitAbsent(g: Graph, acks: set<Sha>, wants: seq<Sha>)
    requires ManyCommits(g, acks, wants) || exists c :: Visits(g, acks, wants, c) && !g.live(c)
    ensures Refusable(g, acks, wants)
  {
    hide Visits, Below, Peeled, ManyCommits, ManyObjects;
    if !ManyCommits(g, acks, wants) {
      var c :| Visits(g, acks, wants, c) && !g.live(c);
      assert Absent(g, acks, wants, c);
    }
  }

  lemma TipsVisited(g: Graph, acks: set<Sha>, wants: seq<Sha>, seeds: Seeds)
    requires SeedsOk(g, wants, seeds)
    ensures AllVisited(g, acks, wants, seeds.commits)
    ensures (forall c :: c in seeds.commits ==> g.kind(c).Commit?) && (forall t :: t in seeds.trees ==> g.kind(t).Tree?)
  {
    hide Peeled, Visits;
    forall c | c in seeds.commits ensures Visits(g, acks, wants, c) { VisitsTip(g, acks, wants, c); }
  }

  lemma TreesTyped(g: Graph, acks: set<Sha>, w: Walked)
    requires WalkOk(g, acks, w, {})
    ensures forall t :: t in w.trees ==> g.kind(t).Tree?
  {
  }

  lemma WalkedWithin(g: Graph, acks: set<Sha>, wanted: set<Sha>, trees: set<Sha>, w: Walked)
    requires WalkExact(g, acks, wanted, trees, w)
    ensures trees <= w.trees && forall c :: c in w.sent <==> c in wanted || (c in w.met && c !in acks)
  {
  }

  /** What stands before the tree walk. */
  ghost predicate Gathered(g: Graph, acks: set<Sha>, wants: seq<Sha>, seeds: Seeds, w: Walked) {
    && SeedsOk(g, wants, seeds) && (forall t :: t in seeds.tags ==> g.live(t) && Planted(g, seeds, g.target(t)))
    && (forall x :: x in wants ==> x in seeds.marked && g.live(x) && Planted(g, seeds, x))
    && WalkOk(g, acks, w, {}) && WalkExact(g, acks, WantedCommits(g, wants), seeds.trees, w)
    && seeds.commits <= w.met && AllVisited(g, acks, wants, w.met) && |w.met| <= MAX_COMMITS
    && (forall c :: c in w.met ==> g.live(c))
  }

  lemma GatheredSent(g: Graph, acks: set<Sha>, wants: seq<Sha>, seeds: Seeds, w: Walked)
    requires Gathered(g, acks, wants, seeds, w)
    ensures seeds.trees <= w.trees && forall c :: c in w.sent <==> c in w.met && (c !in acks || c in wants)
  {
    hide SeedsOk, AllVisited;
    WalkedWithin(g, acks, WantedCommits(g, wants), seeds.trees, w);
    forall x | x in wants && g.kind(x).Commit? ensures x in w.met { assert Planted(g, seeds, x); }
    assert forall c :: c in w.met ==> g.kind(c).Commit?;
  }

  /** What is marked so far is live and asked for. */
  lemma GatheredAsked(g: Graph, acks: set<Sha>, wants: seq<Sha>, seeds: Seeds, w: Walked)
    requires Gathered(g, acks, wants, seeds, w)
    ensures forall x :: x in seeds.marked + w.sent ==> g.live(x) && AskedFor(g, acks, wants, x)
  {
    hide WalkOk, WalkExact, Planted, Visits, Below, Peeled;
    GatheredSent(g, acks, wants, seeds, w);
    forall x | x in w.sent ensures g.live(x) && Ships(g, acks, wants, x) { assert x in w.met; }
  }

  lemma AllSelected(g: Graph, acks: set<Sha>, wants: seq<Sha>, seeds: Seeds, w: Walked, s: Sending)
    requires Gathered(g, acks, wants, seeds, w) && Level(g, acks, wants, s, [], [], {}) && w.trees <= s.expanded
    requires seeds.marked + w.sent <= s.marked
    ensures Selected(g, acks, wants, seeds, w, s)
  {
    hide SeedsOk, WalkOk, WalkExact, Planted, AllVisited, ExpandedOk, SeenOk, SeenTaken, AllBelow;
    GatheredSent(g, acks, wants, seeds, w);
  }

  lemma AllChecked(g: Graph, acks: set<Sha>, wants: seq<Sha>, seeds: Seeds, w: Walked, s: Sending)
    requires Gathered(g, acks, wants, seeds, w) && Level(g, acks, wants, s, [], [], {})
    requires Adds(g, acks, wants, seeds.marked + w.sent, s.marked)
    requires s.seen == seeds.seen || |s.seen| <= MAX_OBJECTS
    ensures Checked(g, acks, wants, seeds, w, s)
    ensures forall x :: x in s.marked ==> AskedFor(g, acks, wants, x)
  {
    hide WalkOk, WalkExact, Planted, AllVisited, ExpandedOk, SeenOk, SeenTaken, AllBelow, Below, Visits, Peeled;
    GatheredSent(g, acks, wants, seeds, w);
    GatheredAsked(g, acks, wants, seeds, w);
  }

  /** The haves the server knows. */
  function Acked(g: Graph, haves: set<Sha>): set<Sha> {
    set h | h in haves && g.live(h)
  }

  /** `send_set` for an unfiltered, non-shallow fetch. It sends exactly the commits visited that
      the client lacks, and the wanted ones; everything marked is asked for and live; it is
      refused only for a reason in the graph, and always for one that pruning cannot hide. For
      a client with nothing that is an if and only if. */
  method SendSet(g: Graph, wants: seq<Sha>, haves: set<Sha>) returns (marked: set<Sha>, sent: set<Sha>, ok: bool)
    requires WellTyped(g)
    ensures var acks := Acked(g, haves);
      && (!ok ==> Refusable(g, acks, wants)) && (ok ==> !Refused(g, acks, wants))
      && (acks == {} ==> (ok <==> !Refused(g, acks, wants)))
    ensures ok ==> forall c :: c in sent <==> Ships(g, Acked(g, haves), wants, c)
    ensures ok ==> forall x :: x in marked ==> g.live(x) && AskedFor(g, Acked(g, haves), wants, x)
    ensures var acks := Acked(g, haves);
      ok ==> forall c :: c in sent ==> g.kind(c).Commit? && Complete(g, acks, marked, c)
    ensures ok ==> forall x :: x in wants ==> x in marked && (g.kind(x).Commit? ==> x in sent)
    ensures var acks := Acked(g, haves);
      ok ==> forall x :: x in wants ==>
        (Complete(g, acks, marked, x) <==> forall y :: Reaches(g, x, y) && Omitted(g, wants, y) ==> Held(g, acks, y))
  {
    hide WellTyped, Selected, Checked, Refusable, Refused, Ships, Seeded, Below, Complete, Omitted, Held, Reaches;
    var acks := Acked(g, haves);
    var seeds, w, s;
    seeds, w, s, ok := Select(g, wants, acks);
    marked, sent := s.marked, w.sent;
    CloneRefused(g, wants);
    if ok {
      NotRefused(g, acks, wants, seeds, w, s);
      SentExactly(g, acks, wants, seeds, w, s);
      Answered(g, acks, wants, seeds, w, s);
    }
  }

  lemma SentExactly(g: Graph, acks: set<Sha>, wants: seq<Sha>, seeds: Seeds, w: Walked, s: Sending)
    requires Selected(g, acks, wants, seeds, w, s) && Checked(g, acks, wants, seeds, w, s)
    ensures forall c :: c in w.sent <==> Ships(g, acks, wants, c)
    ensures forall x :: x in s.marked ==> g.live(x)
    ensures forall c :: c in w.sent ==> g.kind(c).Commit?
    ensures forall x :: x in wants && g.kind(x).Commit? ==> x in w.sent
  {
    hide Visits, SeenTaken, ExpandedOk, SeenOk, SeedsOk, Held;
    forall c | Ships(g, acks, wants, c) ensures c in w.met { VisitedMet(g, acks, wants, seeds, w, s, c); }
    forall x | x in wants && g.kind(x).Commit? ensures x in w.met { assert Planted(g, seeds, x); }
  }

  lemma Answered(g: Graph, acks: set<Sha>, wants: seq<Sha>, seeds: Seeds, w: Walked, s: Sending)
    requires WellTyped(g) && Selected(g, acks, wants, seeds, w, s) && Checked(g, acks, wants, seeds, w, s)
    requires forall x :: x in wants ==> x in s.marked
    requires forall x :: x in s.marked ==> AskedFor(g, acks, wants, x)
    ensures forall c :: c in w.sent ==> Complete(g, acks, s.marked, c)
    ensures forall x :: x in wants ==>
      (Complete(g, acks, s.marked, x) <==> forall y :: Reaches(g, x, y) && Omitted(g, wants, y) ==> Held(g, acks, y))
  {
    hide WellTyped, Selected, Complete, Omitted, Held, Reaches, Visits, Below, SeenTaken, Peeled, AllVisited;
    forall c | c in w.sent ensures Complete(g, acks, s.marked, c) { SentComplete(g, acks, wants, seeds, w, s, c); }
    forall t | t in s.marked && g.kind(t).Tag? ensures t in wants {
      if Ships(g, acks, wants, t) { ShipsCommit(g, acks, wants, seeds, w, s, t); }
    }
    forall x | x in wants ensures
      Complete(g, acks, s.marked, x) <==> forall y :: Reaches(g, x, y) && Omitted(g, wants, y) ==> Held(g, acks, y)
    {
      WantComplete(g, acks, wants, seeds, w, s, x);
    }
  }

  lemma ShipsCommit(g: Graph, acks: set<Sha>, wants: seq<Sha>, seeds: Seeds, w: Walked, s: Sending, c: Sha)
    requires Selected(g, acks, wants, seeds, w, s) && Checked(g, acks, wants, seeds, w, s) && Ships(g, acks, wants, c)
    ensures g.kind(c).Commit?
  {
    hide Visits, SeenTaken, ExpandedOk, SeenOk, SeedsOk, Held;
    VisitedMet(g, acks, wants, seeds, w, s, c);
  }

  /** Every root tree shares the same bases. */
  method Roots(g: Graph, ghost acks: set<Sha>, trees: set<Sha>, bases: set<Sha>) returns (items: seq<Item>)
    requires forall t :: t in trees ==> g.kind(t).Tree?
    requires forall b :: b in bases ==> g.kind(b).Tree? && Held(g, acks, b)
    ensures ItemsOk(g, acks, items) && forall t :: t in trees ==> Listed(items, t)
    ensures forall i :: 0 <= i < |items| ==> items[i].tree in trees
  {
    items := [];
    var todo := trees;
    while todo != {}
      invariant todo <= trees && ItemsOk(g, acks, items) && (forall t :: t in trees && t !in todo ==> Listed(items, t))
      invariant forall i :: 0 <= i < |items| ==> items[i].tree in trees
      decreases todo
    {
      var t :| t in todo;
      todo := todo - {t};
      forall x | x in trees && x !in todo ensures Listed(items + [Item(t, bases)], x) {
        if x == t { assert [Item(t, bases)][0].tree == x; }
        ListedMore(items, [Item(t, bases)], x);
      }
      items := items + [Item(t, bases)];
    }
  }
}
