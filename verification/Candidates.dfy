/** What a build copies: the marked entries of the candidate packs, found batch by batch in
    (pack, idx) order, each exactly once. */
module Candidates {
  import opened Repository
  import opened Building
  import opened Slices
  import opened Hashing
  import opened PackWriting
  import Bitmaps
  import Steps

  /** Entries planned at a time. */
  const BATCH := 90

  /** An index row of a candidate, with the bytes it points at. */
  datatype Loaded = Loaded(sha: Sha, commit: bool, bytes: seq<Byte>)

  /** A candidate pack: its as-copied bitmap and its index rows by idx. */
  datatype Cand = Cand(bitmap: seq<Byte>, rows: map<nat, Loaded>)

  predicate MarkedAt(cands: seq<Cand>, ci: nat, idx: nat) {
    ci < |cands| && idx in Bitmaps.Bits(cands[ci].bitmap)
  }

  /** Every marked entry has its index row. */
  ghost predicate Complete(cands: seq<Cand>) {
    forall ci: nat, idx: nat :: MarkedAt(cands, ci, idx) ==> idx in cands[ci].rows
  }

  ghost predicate HasEntry(ents: seq<Entry>, ci: nat, idx: nat) {
    exists k :: 0 <= k < |ents| && ents[k].ci == ci && ents[k].idx == idx
  }

  ghost predicate Loads(cands: seq<Cand>, e: Entry) {
    && MarkedAt(cands, e.ci, e.idx) && e.idx in cands[e.ci].rows
    && cands[e.ci].rows[e.idx] == Loaded(e.sha, e.commit, e.bytes)
  }

  /** The list is the marked entries before a cursor, in order. */
  ghost predicate ListsTo(cands: seq<Cand>, ents: seq<Entry>, ci: nat, idx: nat) {
    && Ordered(ents)
    && (forall k :: 0 <= k < |ents| ==> Loads(cands, ents[k]) && Before(ents[k], ci, idx))
    && (forall c: nat, i: nat :: MarkedAt(cands, c, i) && (c < ci || (c == ci && i < idx)) ==> HasEntry(ents, c, i))
  }

  /** .. all of them. */
  ghost predicate Lists(cands: seq<Cand>, ents: seq<Entry>) {
    ListsTo(cands, ents, |cands|, 0)
  }

  lemma ListNext(cands: seq<Cand>, ents: seq<Entry>, ci: nat, from: nat, idx: nat)
    requires ListsTo(cands, ents, ci, from) && from <= idx && MarkedAt(cands, ci, idx) && idx in cands[ci].rows
    requires forall i: nat :: from <= i < idx ==> !MarkedAt(cands, ci, i)
    ensures var l := cands[ci].rows[idx]; ListsTo(cands, ents + [Entry(l.sha, ci, idx, l.commit, l.bytes)], ci, idx + 1)
  {
    var l := cands[ci].rows[idx];
    var e := Entry(l.sha, ci, idx, l.commit, l.bytes);
    var more := ents + [e];
    forall i, j | Position(more, i) && Position(more, j) && i < j ensures Before(more[i], more[j].ci, more[j].idx) {
      assert Position(ents, i);
      if j < |ents| { assert Position(ents, j); }
    }
    forall c: nat, i: nat | MarkedAt(cands, c, i) && (c < ci || (c == ci && i < idx + 1)) ensures HasEntry(more, c, i) {
      if c == ci && i == idx {
        assert more[|ents|].ci == c && more[|ents|].idx == i;
      } else {
        assert HasEntry(ents, c, i);
        var k :| 0 <= k < |ents| && ents[k].ci == c && ents[k].idx == i;
        assert more[k].ci == c && more[k].idx == i;
      }
    }
  }

  lemma ListSkip(cands: seq<Cand>, ents: seq<Entry>, ci: nat, from: nat)
    requires ListsTo(cands, ents, ci, from) && forall i: nat :: from <= i ==> !MarkedAt(cands, ci, i)
    ensures ListsTo(cands, ents, ci + 1, 0)
  {
  }

  /** Move on to the next candidate with marked entries left, and plan a batch of them. */
  method NextBatch(cands: seq<Cand>, ents: seq<Entry>, ci0: nat, idx0: nat) returns (ci: nat, idx: nat, idxs: seq<nat>)
    requires ListsTo(cands, ents, ci0, idx0) && ci0 <= |cands|
    ensures ci0 <= ci <= |cands| && ListsTo(cands, ents, ci, idx) && (ci == |cands| <==> idxs == [])
    ensures Bitmaps.Ascending(idxs) && forall i :: i in idxs ==> MarkedAt(cands, ci, i) && idx <= i
    ensures idxs != [] ==> forall i: nat :: MarkedAt(cands, ci, i) && idx <= i && i !in idxs ==>
      forall j :: j in idxs ==> j < i
    ensures ci == |cands| ==> ListsTo(cands, ents, |cands|, 0)
  {
    hide ListsTo, Bitmaps.Bits;
    ci, idx, idxs := ci0, idx0, [];
    while ci < |cands|
      invariant ci0 <= ci <= |cands| && ListsTo(cands, ents, ci, idx)
      invariant idxs == []
      decreases |cands| - ci
    {
      idxs := Bitmaps.IdxsFrom(cands[ci].bitmap, idx, BATCH);
      if idxs != [] { return; }
      ListSkip(cands, ents, ci, idx);
      ci, idx := ci + 1, 0;
    }
    ListEnd(cands, ents, ci, idx);
  }

  lemma ListEnd(cands: seq<Cand>, ents: seq<Entry>, ci: nat, idx: nat)
    requires ListsTo(cands, ents, ci, idx) && ci == |cands|
    ensures ListsTo(cands, ents, ci, 0)
  {
    forall k | 0 <= k < |ents| ensures Before(ents[k], ci, 0) {
      assert Loads(cands, ents[k]);
    }
  }

  /** The batch's rows; refused when one is missing. The cursor moves past an entry only
      when the entry is taken. */
  method TakeBatch(cands: seq<Cand>, ents: seq<Entry>, ci: nat, idx0: nat, idxs: seq<nat>)
    returns (ents': seq<Entry>, idx: nat, ok: bool)
    requires ListsTo(cands, ents, ci, idx0) && idxs != [] && Bitmaps.Ascending(idxs)
    requires forall i :: i in idxs ==> MarkedAt(cands, ci, i) && idx0 <= i
    requires forall i: nat :: MarkedAt(cands, ci, i) && idx0 <= i && i !in idxs ==> forall j :: j in idxs ==> j < i
    ensures ok ==> ListsTo(cands, ents', ci, idx) && idx0 < idx && |ents'| == |ents| + |idxs|
    ensures ok ==> forall i :: i in idxs ==> i < idx
    ensures !ok ==> !Complete(cands)
  {
    hide ListsTo, Bitmaps.Bits;
    ents', idx, ok := ents, idx0, true;
    for k := 0 to |idxs|
      invariant ListsTo(cands, ents', ci, idx) && |ents'| == |ents| + k && idx0 <= idx && (k > 0 ==> idx0 < idx)
      invariant forall j :: 0 <= j < k ==> idxs[j] < idx
      invariant forall i: nat :: MarkedAt(cands, ci, i) && idx <= i ==> forall j :: 0 <= j < k ==> idxs[j] < i
      invariant idx == if k > 0 then idxs[k - 1] + 1 else idx0
    {
      var i := idxs[k];
      assert MarkedAt(cands, ci, i);
      if i !in cands[ci].rows { return ents', idx, false; }
      Gapless(cands, ci, idxs, k, idx0, idx);
      ListNext(cands, ents', ci, idx, i);
      var l := cands[ci].rows[i];
      ents', idx := ents' + [Entry(l.sha, ci, i, l.commit, l.bytes)], i + 1;
    }
  }

  /** No marked entry lies between the cursor and the next of the batch. */
  lemma Gapless(cands: seq<Cand>, ci: nat, idxs: seq<nat>, k: nat, idx0: nat, idx: nat)
    requires k < |idxs| && Bitmaps.Ascending(idxs) && idx0 <= idx && idx == (if k > 0 then idxs[k - 1] + 1 else idx0)
    requires forall i: nat :: MarkedAt(cands, ci, i) && idx0 <= i && i !in idxs ==> forall j :: j in idxs ==> j < i
    requires forall i :: i in idxs ==> idx0 <= i
    ensures idx <= idxs[k] && forall i: nat :: idx <= i < idxs[k] ==> !MarkedAt(cands, ci, i)
  {
    hide MarkedAt;
    assert idxs[k] in idxs;
    assert forall j :: 0 <= j < |idxs| ==> idxs[j] < idx || idxs[j] >= idxs[k];
  }

  /** The whole input, batch after batch, is exactly the marked entries in (pack, idx) order;
      it is refused exactly when a marked entry has no row. */
  method Scan(cands: seq<Cand>) returns (ents: seq<Entry>, ok: bool)
    ensures ok ==> Lists(cands, ents)
    ensures ok <==> Complete(cands)
  {
    ents, ok := [], true;
    var ci: nat, idx: nat, idxs: seq<nat> := NextBatch(cands, ents, 0, 0);
    while idxs != []
      invariant ci <= |cands| && ListsTo(cands, ents, ci, idx) && (ci == |cands| <==> idxs == [])
      invariant Bitmaps.Ascending(idxs) && forall i :: i in idxs ==> MarkedAt(cands, ci, i) && idx <= i
      invariant idxs != [] ==> forall i: nat :: MarkedAt(cands, ci, i) && idx <= i && i !in idxs ==>
        forall j :: j in idxs ==> j < i
      invariant ci == |cands| ==> ListsTo(cands, ents, |cands|, 0)
      decreases |cands| - ci, if ci < |cands| then Left(cands[ci].bitmap, idx) else 0
    {
      assert idxs[0] in idxs;
      ents, idx, ok := TakeBatch(cands, ents, ci, idx, idxs);
      if !ok { return; }
      ci, idx, idxs := NextBatch(cands, ents, ci, idx);
    }
    ListedComplete(cands, ents);
  }

  /** The positions a bitmap has from `idx` on. */
  function Left(bm: seq<Byte>, idx: nat): nat {
    if idx < 8 * |bm| then 8 * |bm| - idx else 0
  }

  lemma ListedComplete(cands: seq<Cand>, ents: seq<Entry>)
    requires Lists(cands, ents)
    ensures Complete(cands)
  {
    forall ci: nat, idx: nat | MarkedAt(cands, ci, idx) ensures idx in cands[ci].rows {
      assert HasEntry(ents, ci, idx);
      var k :| 0 <= k < |ents| && ents[k].ci == ci && ents[k].idx == idx;
      assert Loads(cands, ents[k]);
    }
  }

  // ---- the announced count ------------------------------------------------------------

  /** The marked positions of the first n candidates. */
  ghost function Positions(cands: seq<Cand>, n: nat): set<(nat, nat)>
    requires n <= |cands|
  {
    set ci: nat, idx | ci < n && idx in Bitmaps.Bits(cands[ci].bitmap) :: (ci, idx)
  }

  lemma {:induction false} PositionsNext(cands: seq<Cand>, n: nat)
    requires n < |cands|
    ensures |Positions(cands, n + 1)| == |Positions(cands, n)| + |Bitmaps.Bits(cands[n].bitmap)|
  {
    hide Bitmaps.Bits;
    var bits := Bitmaps.Bits(cands[n].bitmap);
    TagCount(bits, n);
    assert Positions(cands, n + 1) == Positions(cands, n) + Tag(bits, n) && Positions(cands, n) !! Tag(bits, n);
  }

  ghost function Tag(s: set<nat>, n: nat): set<(nat, nat)> {
    set idx | idx in s :: (n, idx)
  }

  lemma {:induction false} TagCount(s: set<nat>, n: nat)
    ensures |Tag(s, n)| == |s|
  {
    if s == {} {
      assert Tag(s, n) == {};
    } else {
      var x :| x in s;
      TagCount(s - {x}, n);
      assert Tag(s, n) == Tag(s - {x}, n) + {(n, x)};
    }
  }

  ghost function EntryPositions(ents: seq<Entry>): set<(nat, nat)> {
    set k | 0 <= k < |ents| :: (ents[k].ci, ents[k].idx)
  }

  lemma {:induction false} OrderedCount(ents: seq<Entry>)
    requires Ordered(ents)
    ensures |EntryPositions(ents)| == |ents|
  {
    if ents != [] {
      var init, e := ents[..|ents| - 1], ents[|ents| - 1];
      forall i, j | Position(init, i) && Position(init, j) && i < j ensures Before(init[i], init[j].ci, init[j].idx) {
        assert Position(ents, i) && Position(ents, j);
      }
      OrderedCount(init);
      assert Position(ents, |ents| - 1);
      forall k | 0 <= k < |init| ensures Before(init[k], e.ci, e.idx) {
        assert Position(ents, k);
      }
      assert EntryPositions(ents) == EntryPositions(init) + {(e.ci, e.idx)};
    }
  }

  /** The entry count a build announces in its header is the number of entries it copies. */
  method Total(cands: seq<Cand>, ghost ents: seq<Entry>) returns (n: nat)
    requires Lists(cands, ents)
    ensures n == |ents|
  {
    hide Bitmaps.Bits, Lists;
    n := 0;
    assert Positions(cands, 0) == {};
    for i := 0 to |cands|
      invariant n == |Positions(cands, i)|
    {
      PositionsNext(cands, i);
      var ones := Bitmaps.Popcount(cands[i].bitmap);
      n := n + ones;
    }
    SamePositions(cands, ents);
  }

  lemma SamePositions(cands: seq<Cand>, ents: seq<Entry>)
    requires Lists(cands, ents)
    ensures |Positions(cands, |cands|)| == |ents|
  {
    OrderedCount(ents);
    forall p | p in Positions(cands, |cands|) ensures p in EntryPositions(ents) {
      assert MarkedAt(cands, p.0, p.1);
      assert HasEntry(ents, p.0, p.1);
    }
    forall p | p in EntryPositions(ents) ensures p in Positions(cands, |cands|) {
      var k :| 0 <= k < |ents| && p == (ents[k].ci, ents[k].idx);
      assert Loads(cands, ents[k]);
    }
    assert Positions(cands, |cands|) == EntryPositions(ents);
  }

  // ---- the build ----------------------------------------------------------------------

  predicate SameObject(cands: seq<Cand>, a: nat, i: nat, b: nat, j: nat) {
    && MarkedAt(cands, a, i) && MarkedAt(cands, b, j) && i in cands[a].rows && j in cands[b].rows
    && cands[a].rows[i].sha == cands[b].rows[j].sha
  }

  /** Marked entries name different objects, and no entry is empty. */
  ghost predicate Sound(cands: seq<Cand>) {
    && (forall ci: nat, idx: nat :: MarkedAt(cands, ci, idx) && idx in cands[ci].rows ==>
      cands[ci].rows[idx].bytes != [])
    && (forall a: nat, i: nat, b: nat, j: nat :: SameObject(cands, a, i, b, j) ==> a == b && i == j)
  }

  lemma ListedInput(cands: seq<Cand>, ents: seq<Entry>)
    requires Lists(cands, ents) && Sound(cands)
    ensures Input(ents)
  {
    hide Bitmaps.Bits;
    forall i, j | Position(ents, i) && Position(ents, j) && i < j ensures ents[i].sha != ents[j].sha {
      assert Loads(cands, ents[i]) && Loads(cands, ents[j]);
      assert Before(ents[i], ents[j].ci, ents[j].idx);
      assert !SameObject(cands, ents[i].ci, ents[i].idx, ents[j].ci, ents[j].idx);
    }
    forall i | 0 <= i < |ents| ensures ents[i].bytes != [] {
      assert Loads(cands, ents[i]);
    }
  }

  /** What a reader finds in a finished pack: the letters, version 2 and the number of entries;
      each entry's bytes where its row says, the first behind the header and each right behind
      the one before; and behind the last the digest of all that. */
  ghost predicate ReadsBack(ents: seq<Entry>, alg: Alg, pack: seq<Byte>, rows: map<Sha, Row>) {
    && Announces(pack, |ents|)
    && (forall k :: 0 <= k < |ents| ==> EntryReads(ents, pack, rows, k))
    && var end := EndOf(ents, rows, |ents|);
    && end <= |pack| && pack[end..] == Digest(alg, pack[..end])
  }

  function EndOf(ents: seq<Entry>, rows: map<Sha, Row>, k: nat): nat
    requires k <= |ents|
  {
    if k == 0 then 12
    else if ents[k - 1].sha in rows then rows[ents[k - 1].sha].offset + rows[ents[k - 1].sha].len
    else 0
  }

  ghost predicate EntryReads(ents: seq<Entry>, pack: seq<Byte>, rows: map<Sha, Row>, k: nat)
    requires k < |ents|
  {
    var e := ents[k];
    && e.sha in rows && rows[e.sha].idx == k && rows[e.sha].commit == e.commit && rows[e.sha].len == |e.bytes|
    && rows[e.sha].offset == EndOf(ents, rows, k) && rows[e.sha].offset + rows[e.sha].len <= |pack|
    && pack[rows[e.sha].offset..rows[e.sha].offset + rows[e.sha].len] == e.bytes
  }

  lemma RowsEnd(ents: seq<Entry>, rows: map<Sha, Row>, k: nat)
    requires k <= |ents| && Indexed(ents, rows)
    ensures EndOf(ents, rows, k) == Off(ents, k)
  {
    if k > 0 { OffNext(ents, k - 1); }
  }

  lemma EntryFound(ents: seq<Entry>, pack: seq<Byte>, rows: map<Sha, Row>, k: nat)
    requires k < |ents| && Indexed(ents, rows) && Straight(ents) <= pack
    ensures EntryReads(ents, pack, rows, k)
  {
    hide Straight, Off, EndOf;
    RowsEnd(ents, rows, k);
    OffNext(ents, k);
    EntryAt(ents, k);
    SameStretch(Straight(ents), pack, Off(ents, k), Off(ents, k + 1));
  }

  lemma SameStretch(a: seq<Byte>, b: seq<Byte>, from: nat, to: nat)
    requires a <= b && from <= to <= |a|
    ensures b[from..to] == a[from..to]
  {
  }

  lemma StraightAnnounces(ents: seq<Entry>, rest: seq<Byte>)
    ensures Announces(Straight(ents) + rest, |ents|)
  {
    hide Header, Announces, Body;
    HeaderReads(|ents|);
    assert Straight(ents) + rest == Header(|ents|) + (Body(ents, |ents|) + rest);
    AnnouncesKept(Header(|ents|), Straight(ents) + rest, |ents|);
  }

  lemma FinishedReads(ents: seq<Entry>, alg: Alg, pack: seq<Byte>, rows: map<Sha, Row>)
    requires Indexed(ents, rows) && pack == Straight(ents) + Digest(alg, Straight(ents))
    ensures ReadsBack(ents, alg, pack, rows)
  {
    hide Indexed, EndOf, EntryReads, Straight, Digest, Announces;
    StraightAnnounces(ents, Digest(alg, Straight(ents)));
    forall k | 0 <= k < |ents| ensures EntryReads(ents, pack, rows, k) { EntryFound(ents, pack, rows, k); }
    RowsEnd(ents, rows, |ents|);
    StraightLength(ents);
    assert pack[..|Straight(ents)|] == Straight(ents);
  }

  lemma StraightLength(ents: seq<Entry>)
    ensures |Straight(ents)| == Off(ents, |ents|)
  {
    BodyLength(ents, |ents|);
  }

  /** The whole build, from the candidates and under any schedules: it fails exactly when a
      marked entry has no row, it finishes in the first slice nothing disturbs, and what it
      finishes is the header, every marked entry once in (pack, idx) order, the digest, and
      the exact index. */
  method Build(cands: seq<Cand>, alg: Alg, size: nat, gos: seq<Schedule>, lost: nat -> bool)
    returns (r: Outcome, ghost ents: seq<Entry>)
    requires Sound(cands) && size > 12
    ensures r.Failed? <==> !Complete(cands)
    ensures !r.Failed? ==> Lists(cands, ents)
    ensures r.Finished? ==> r.pack == Straight(ents) + Digest(alg, Straight(ents)) && Indexed(ents, r.rows)
    ensures r.Finished? ==> ReadsBack(ents, alg, r.pack, r.rows)
    ensures r.Finished? ==> LowIs(ents, |ents|, r.commits.lo) && HighIs(ents, |ents|, r.commits.hi)
    ensures r.Stopped? ==> forall i :: 0 <= i < |gos| ==> Disturbed(gos[i])
  {
    var list, ok := Scan(cands);
    ents := list;
    if !ok { return Failed, list; }
    ListedInput(cands, list);
    var total := Total(cands, list);
    assert total == |list|;
    r := BuildSlices(list, alg, size, gos, lost);
    if r.Finished? { FinishedReads(list, alg, r.pack, r.rows); }
  }

  // ---- what the protocol needs of it ----------------------------------------------------

  /** The candidates are the cohort: its packs in some order, their as-copied bits, their rows. */
  ghost predicate Depicts(db: Store, m: Cohort, ids: seq<PackId>, cands: seq<Cand>) {
    && |ids| == |cands| && (forall p :: p in m <==> p in ids)
    && (forall i, j :: 0 <= i < j < |ids| ==> ids[i] != ids[j])
    && forall i :: 0 <= i < |ids| ==>
         && ids[i] in db.rows && Bitmaps.Bits(cands[i].bitmap) == BuiltBits(m[ids[i]])
         && (forall x :: x in db.rows[ids[i]] ==>
              db.rows[ids[i]][x] in cands[i].rows && cands[i].rows[db.rows[ids[i]][x]].sha == x)
         && (forall k :: k in cands[i].rows ==>
              cands[i].rows[k].sha in db.rows[ids[i]] && db.rows[ids[i]][cands[i].rows[k].sha] == k)
  }

  /** The finished index has exactly the objects the build was to copy: the guard under which
      the build pack goes live. */
  lemma IndexedIsBuilt(db: Store, m: Cohort, ids: seq<PackId>, cands: seq<Cand>, ents: seq<Entry>, rows: map<Sha, Row>)
    requires Depicts(db, m, ids, cands) && Lists(cands, ents) && Indexed(ents, rows)
    ensures forall x :: x in rows <==> BuiltSha(db, m, x)
  {
    hide Depicts, Lists, BuiltSha;
    forall x | x in rows ensures BuiltSha(db, m, x) {
      var k :| 0 <= k < |ents| && ents[k].sha == x;
      ListedIsBuilt(db, m, ids, cands, ents, k);
    }
    forall x | BuiltSha(db, m, x) ensures x in rows {
      BuiltIsListed(db, m, ids, cands, ents, x);
    }
  }

  lemma ListedIsBuilt(db: Store, m: Cohort, ids: seq<PackId>, cands: seq<Cand>, ents: seq<Entry>, k: nat)
    requires Depicts(db, m, ids, cands) && Lists(cands, ents) && k < |ents|
    ensures BuiltSha(db, m, ents[k].sha)
  {
    hide Bitmaps.Bits, Ordered;
    assert Loads(cands, ents[k]);
    var p := ids[ents[k].ci];
    assert p in ids;
    assert BuiltCopy(db, m, ents[k].sha, p);
  }

  lemma BuiltIsListed(db: Store, m: Cohort, ids: seq<PackId>, cands: seq<Cand>, ents: seq<Entry>, x: Sha)
    requires Depicts(db, m, ids, cands) && Lists(cands, ents) && BuiltSha(db, m, x)
    ensures x in ShasOf(ents, 0, |ents|)
  {
    hide Bitmaps.Bits, Ordered;
    var p :| BuiltCopy(db, m, x, p);
    var i :| 0 <= i < |ids| && ids[i] == p;
    var idx := db.rows[p][x];
    assert MarkedAt(cands, i, idx);
    assert HasEntry(ents, i, idx);
    var k :| 0 <= k < |ents| && ents[k].ci == i && ents[k].idx == idx;
    assert Loads(cands, ents[k]);
    assert ents[k].sha == x;
  }

  /** So, its rows posted, the build pack holds exactly the built objects. */
  lemma PostedIsExact(db: Store, m: Cohort, ids: seq<PackId>, cands: seq<Cand>, ents: seq<Entry>, rows: map<Sha, Row>,
                      n: PackId)
    requires Depicts(db, m, ids, cands) && Lists(cands, ents) && Indexed(ents, rows)
    requires n in db.rows && db.rows[n] == map x | x in rows :: rows[x].idx
    ensures BuiltExactly(db, m, n)
  {
    hide Lists, Indexed, Depicts;
    IndexedIsBuilt(db, m, ids, cands, ents, rows);
  }

  /** A compaction's marks name each object once, so they can be built .. */
  lemma DedupIsDistinct(db: Store, m: Cohort, ids: seq<PackId>, cands: seq<Cand>)
    requires Depicts(db, m, ids, cands) && Steps.DedupMarks(db, m)
    requires forall ci, k :: 0 <= ci < |cands| && k in cands[ci].rows ==> cands[ci].rows[k].bytes != []
    ensures Sound(cands)
  {
    hide Bitmaps.Bits;
    forall a: nat, i: nat, b: nat, j: nat | SameObject(cands, a, i, b, j) ensures a == b && i == j {
      var x := cands[a].rows[i].sha;
      assert Copy(db, x, ids[a]) && Copy(db, x, ids[b]);
      assert ids[a] in m && ids[b] in m;
    }
  }

  /** .. and its output holds exactly the objects of the cohort, each once. */
  lemma CompactionIsExact(db: Store, m: Cohort, ids: seq<PackId>, cands: seq<Cand>, ents: seq<Entry>,
                          rows: map<Sha, Row>)
    requires Depicts(db, m, ids, cands) && Lists(cands, ents) && Indexed(ents, rows) && Steps.DedupMarks(db, m)
    ensures forall x :: x in rows <==> exists p :: p in m && Copy(db, x, p)
  {
    hide Depicts, Lists, Indexed;
    IndexedIsBuilt(db, m, ids, cands, ents, rows);
    forall x | exists p :: p in m && Copy(db, x, p) ensures BuiltSha(db, m, x) {
      var p :| p in m && Copy(db, x, p);
      var q :| q in m && Copy(db, x, q) && db.rows[q][x] in m[q].bitmap;
      assert BuiltCopy(db, m, x, q);
    }
    forall x | BuiltSha(db, m, x) ensures exists p :: p in m && Copy(db, x, p) {
      var p :| BuiltCopy(db, m, x, p);
    }
  }
}
