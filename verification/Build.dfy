/** The resumable consolidate build: marked entries copied in (pack, idx) order into one
    pack, across slices that yield, die and lose their saved tail. */
module Building {
  import opened Repository
  import opened Hashing
  import opened PackWriting

  /** An entry to copy: its candidate pack's position, its index there, whether it is a
      commit, its wire bytes. */
  datatype Entry = Entry(sha: Sha, ci: nat, idx: nat, commit: bool, bytes: seq<Byte>)
  datatype Row = Row(idx: nat, offset: nat, len: nat, commit: bool)

  predicate Before(e: Entry, ci: nat, idx: nat) {
    e.ci < ci || (e.ci == ci && e.idx < idx)
  }

  // The pairwise facts about the input are used only where two positions are named.
  predicate Position(ents: seq<Entry>, i: int) {
    0 <= i < |ents|
  }

  ghost predicate Distinct(ents: seq<Entry>) {
    forall i, j {:trigger Position(ents, i), Position(ents, j)} ::
      Position(ents, i) && Position(ents, j) && i < j ==> ents[i].sha != ents[j].sha
  }

  ghost predicate Ordered(ents: seq<Entry>) {
    forall i, j {:trigger Position(ents, i), Position(ents, j)} ::
      Position(ents, i) && Position(ents, j) && i < j ==> Before(ents[i], ents[j].ci, ents[j].idx)
  }

  ghost predicate NonEmpty(ents: seq<Entry>) {
    forall i :: 0 <= i < |ents| ==> ents[i].bytes != []
  }

  /** The build's input: in (pack, idx) order, one entry per object, none empty. */
  ghost predicate Input(ents: seq<Entry>) {
    Ordered(ents) && Distinct(ents) && NonEmpty(ents)
  }

  lemma Splice<T>(s: seq<T>, a: seq<T>, b: seq<T>)
    requires a <= s && |a| + |b| <= |s| && b == s[|a|..|a| + |b|]
    ensures a + b <= s
  {
  }

  lemma SpliceAt<T>(s: seq<T>, a: seq<T>, o: nat, e: seq<T>, frag: nat, n: nat)
    requires o + |e| <= |s| && s[o..o + |e|] == e && frag + n <= |e| && a <= s && |a| == o + frag
    ensures a + e[frag..frag + n] <= s
  {
    assert e[frag..frag + n] == s[o + frag..o + frag + n] by {
      assert forall i :: 0 <= i < |e| ==> e[i] == s[o + i];
    }
    Splice(s, a, e[frag..frag + n]);
  }

  lemma Cut<T>(s: seq<T>, a: seq<T>, b: seq<T>)
    requires a + b <= s
    ensures a <= s && |a| + |b| <= |s| && b == s[|a|..|a| + |b|]
  {
    assert b == (a + b)[|a|..];
  }

  // ---- the straight copy ------------------------------------------------------------

  function Body(ents: seq<Entry>, k: nat): seq<Byte>
    requires k <= |ents|
  {
    if k == 0 then [] else Body(ents, k - 1) + ents[k - 1].bytes
  }

  function Off(ents: seq<Entry>, k: nat): nat
    requires k <= |ents|
  {
    if k == 0 then 12 else Off(ents, k - 1) + |ents[k - 1].bytes|
  }

  /** Header, then every entry in order: all of the finished pack but its trailer. */
  function Straight(ents: seq<Entry>): seq<Byte> {
    Header(|ents|) + Body(ents, |ents|)
  }

  function RowOf(ents: seq<Entry>, k: nat): Row
    requires k < |ents|
  {
    Row(k, Off(ents, k), |ents[k].bytes|, ents[k].commit)
  }

  lemma {:induction false} BodyPrefix(ents: seq<Entry>, k: nat, m: nat)
    requires k <= m <= |ents|
    ensures |Body(ents, k)| <= |Body(ents, m)| && Body(ents, m)[..|Body(ents, k)|] == Body(ents, k)
  {
    if k < m { BodyPrefix(ents, k, m - 1); }
  }

  lemma {:induction false} BodyLength(ents: seq<Entry>, k: nat)
    requires k <= |ents|
    ensures Off(ents, k) == 12 + |Body(ents, k)|
  {
    if k > 0 { BodyLength(ents, k - 1); }
  }

  /** The straight copy holds entry k's bytes at its offset. */
  lemma EntryAt(ents: seq<Entry>, k: nat)
    requires k < |ents|
    ensures Off(ents, k + 1) <= Off(ents, |ents|) == |Straight(ents)|
    ensures Straight(ents)[Off(ents, k)..Off(ents, k + 1)] == ents[k].bytes
  {
    BodyPrefix(ents, k + 1, |ents|);
    BodyLength(ents, k);
    BodyLength(ents, k + 1);
    BodyLength(ents, |ents|);
    ghost var all, upto := Body(ents, |ents|), Body(ents, k + 1);
    assert upto[|Body(ents, k)|..] == ents[k].bytes;
    assert Straight(ents)[Off(ents, k)..Off(ents, k + 1)] == all[..|upto|][|Body(ents, k)|..];
  }

  lemma OffNext(ents: seq<Entry>, k: nat)
    requires k < |ents|
    ensures Off(ents, k + 1) == Off(ents, k) + |ents[k].bytes|
  {
  }

  lemma {:induction false} OffOrder(ents: seq<Entry>, i: nat, j: nat)
    requires i <= j <= |ents|
    ensures Off(ents, i) <= Off(ents, j)
    decreases j
  {
    if i < j { OffOrder(ents, i, j - 1); }
  }

  // ---- cursors ----------------------------------------------------------------------

  /** How many entries a cursor has passed. */
  function Rank(ents: seq<Entry>, ci: nat, idx: nat): (r: nat)
    ensures r <= |ents|
  {
    RankFrom(ents, 0, ci, idx)
  }

  function RankFrom(ents: seq<Entry>, i: nat, ci: nat, idx: nat): (r: nat)
    requires i <= |ents|
    ensures i <= r <= |ents|
    decreases |ents| - i
  {
    if i == |ents| || !Before(ents[i], ci, idx) then i else RankFrom(ents, i + 1, ci, idx)
  }

  lemma {:induction false} RankIs(ents: seq<Entry>, i: nat, ci: nat, idx: nat, k: nat)
    requires i <= k <= |ents| && (forall j :: i <= j < k ==> Before(ents[j], ci, idx))
    requires k < |ents| ==> !Before(ents[k], ci, idx)
    ensures RankFrom(ents, i, ci, idx) == k
    decreases k - i
  {
    if i < k { RankIs(ents, i + 1, ci, idx, k); }
  }

  lemma RankAt(ents: seq<Entry>, k: nat)
    requires Ordered(ents) && k < |ents|
    ensures Rank(ents, ents[k].ci, ents[k].idx) == k && Rank(ents, ents[k].ci, ents[k].idx + 1) == k + 1
  {
    assert Position(ents, k);
    forall j | 0 <= j < k ensures Before(ents[j], ents[k].ci, ents[k].idx) {
      assert Position(ents, j);
    }
    RankIs(ents, 0, ents[k].ci, ents[k].idx, k);
    assert k + 1 < |ents| ==> Position(ents, k + 1);
    RankIs(ents, 0, ents[k].ci, ents[k].idx + 1, k + 1);
  }

  /** `frag` bytes of the entry under the cursor are done. */
  ghost predicate FragOk(ents: seq<Entry>, ci: nat, idx: nat, frag: nat) {
    frag > 0 ==>
      var k := Rank(ents, ci, idx);
      k < |ents| && ents[k].ci == ci && ents[k].idx == idx && frag <= |ents[k].bytes|
  }

  ghost predicate Partial(ents: seq<Entry>, ci: nat, idx: nat, frag: nat) {
    var k := Rank(ents, ci, idx);
    frag > 0 ==> k < |ents| && frag < |ents[k].bytes|
  }

  /** Copying from this cursor on top of `d` durable bytes reproduces the straight copy. */
  ghost predicate Boundary(ents: seq<Entry>, ci: nat, idx: nat, frag: nat, d: nat, count: nat) {
    && count == Rank(ents, ci, idx)
    && FragOk(ents, ci, idx, frag)
    && (if d == 0 then count == 0 && frag == 0 else Off(ents, count) + frag == d)
  }

  // ---- index rows -------------------------------------------------------------------

  ghost predicate RowsCorrect(ents: seq<Entry>, rows: map<Sha, Row>) {
    forall x :: x in rows ==> var k := rows[x].idx; k < |ents| && ents[k].sha == x && rows[x] == RowOf(ents, k)
  }

  function ShasOf(ents: seq<Entry>, b: nat, k: nat): set<Sha>
    requires b <= k <= |ents|
  {
    set j | b <= j < k :: ents[j].sha
  }

  ghost predicate RowsUpTo(ents: seq<Entry>, rows: map<Sha, Row>, k: nat)
    requires k <= |ents|
  {
    ShasOf(ents, 0, k) <= rows.Keys
  }

  lemma RowIs(ents: seq<Entry>, rows: map<Sha, Row>, k: nat)
    requires Distinct(ents) && RowsCorrect(ents, rows) && k < |ents| && ents[k].sha in rows
    ensures rows[ents[k].sha] == RowOf(ents, k)
  {
    var j := rows[ents[k].sha].idx;
    assert Position(ents, j) && Position(ents, k);
  }

  /** `SELECT COUNT(*) .. offset+len > lo AND offset+len <= hi`. */
  function EndingIn(rows: map<Sha, Row>, lo: nat, hi: nat): set<Sha> {
    set x | x in rows && lo < rows[x].offset + rows[x].len <= hi
  }

  lemma {:induction false} ShaCount(ents: seq<Entry>, b: nat, k: nat)
    requires Distinct(ents) && b <= k <= |ents|
    ensures |ShasOf(ents, b, k)| == k - b
    decreases k - b
  {
    if b < k {
      ShaCount(ents, b, k - 1);
      var init, last := ShasOf(ents, b, k - 1), ents[k - 1].sha;
      forall j | b <= j < k - 1 ensures ents[j].sha != last {
        assert Position(ents, j) && Position(ents, k - 1);
      }
      assert ShasOf(ents, b, k) == init + {last};
    }
  }

  lemma EndsInTail(ents: seq<Entry>, b: nat, lo: nat, k: nat, hi: nat, j: nat)
    requires b <= k <= |ents| && j < |ents|
    requires lo <= hi && (lo == 0 == b || Off(ents, b) <= lo) && (b < |ents| ==> lo < Off(ents, b + 1))
    requires Off(ents, k) <= hi && (k < |ents| ==> hi < Off(ents, k + 1))
    ensures lo < Off(ents, j + 1) <= hi <==> b <= j < k
  {
    if j < b { OffOrder(ents, j + 1, b); }
    else if j < k { OffOrder(ents, b + 1, j + 1); OffOrder(ents, j + 1, k); }
    else { OffOrder(ents, k + 1, j + 1); }
  }

  /** The rows that end inside a saved tail are entries b up to k. */
  ghost predicate TailRows(ents: seq<Entry>, rows: map<Sha, Row>, b: nat, k: nat, lo: nat, hi: nat) {
    && b <= k <= |ents| && EndingIn(rows, lo, hi) == ShasOf(ents, b, k)
    && forall j :: b <= j < k ==> ents[j].sha in rows && rows[ents[j].sha] == RowOf(ents, j)
  }

  /** The rows that end inside the saved tail are those of the entries that completed in it. */
  lemma TailRowsAre(ents: seq<Entry>, rows: map<Sha, Row>, b: nat, lo: nat, k: nat, hi: nat)
    requires Distinct(ents) && RowsCorrect(ents, rows) && b <= k <= |ents| && RowsUpTo(ents, rows, k)
    requires lo <= hi && (lo == 0 == b || Off(ents, b) <= lo) && (b < |ents| ==> lo < Off(ents, b + 1))
    requires Off(ents, k) <= hi && (k < |ents| ==> hi < Off(ents, k + 1))
    ensures TailRows(ents, rows, b, k, lo, hi)
  {
    forall x | x in EndingIn(rows, lo, hi) ensures x in ShasOf(ents, b, k) {
      var j := rows[x].idx;
      OffNext(ents, j);
      EndsInTail(ents, b, lo, k, hi, j);
    }
    forall j | b <= j < k
      ensures ents[j].sha in rows && rows[ents[j].sha] == RowOf(ents, j) && ents[j].sha in EndingIn(rows, lo, hi)
    {
      assert ents[j].sha in ShasOf(ents, 0, k);
      RowIs(ents, rows, j);
      OffNext(ents, j);
      EndsInTail(ents, b, lo, k, hi, j);
    }
    assert EndingIn(rows, lo, hi) == ShasOf(ents, b, k);
  }

  lemma TailCount(ents: seq<Entry>, rows: map<Sha, Row>, b: nat, lo: nat, k: nat, hi: nat)
    requires Distinct(ents) && RowsCorrect(ents, rows) && b <= k <= |ents| && RowsUpTo(ents, rows, k)
    requires lo <= hi && (lo == 0 == b || Off(ents, b) <= lo) && (b < |ents| ==> lo < Off(ents, b + 1))
    requires Off(ents, k) <= hi && (k < |ents| ==> hi < Off(ents, k + 1))
    ensures |EndingIn(rows, lo, hi)| == k - b && TailRows(ents, rows, b, k, lo, hi)
  {
    hide Distinct, RowsCorrect, RowsUpTo, Off, RowOf;
    TailRowsAre(ents, rows, b, lo, k, hi);
    ShaCount(ents, b, k);
  }

  // ---- where the commits lie --------------------------------------------------------

  /** lo is the least offset of a commit among the first n entries. */
  ghost predicate LowIs(ents: seq<Entry>, n: nat, lo: nat) {
    && n <= |ents|
    && (forall k :: 0 <= k < n && ents[k].commit ==> lo <= Off(ents, k))
    && (lo == MAX64 || exists k :: 0 <= k < n && ents[k].commit && lo == Off(ents, k))
  }

  /** hi is the greatest end of one. */
  ghost predicate HighIs(ents: seq<Entry>, n: nat, hi: nat) {
    && n <= |ents|
    && (forall k :: 0 <= k < n && ents[k].commit ==> Off(ents, k + 1) <= hi)
    && (hi == 0 || exists k :: 0 <= k < n && ents[k].commit && hi == Off(ents, k + 1))
  }

  /** The bounds may know of entries past the first n: a checkpoint rewinds its count and
      not its bounds, and a replay meets the same entries at the same offsets. */
  ghost predicate BoundsOk(ents: seq<Entry>, n: nat, b: Bounds) {
    && (exists i :: n <= i && LowIs(ents, i, b.lo))
    && (exists j :: n <= j && HighIs(ents, j, b.hi))
  }

  lemma BoundsFewer(ents: seq<Entry>, n: nat, k: nat, b: Bounds)
    requires BoundsOk(ents, n, b) && k <= n
    ensures BoundsOk(ents, k, b)
  {
    hide LowIs, HighIs;
  }

  lemma LowNext(ents: seq<Entry>, n: nat, i: nat, lo: nat)
    requires n <= i && LowIs(ents, i, lo) && n < |ents|
    ensures var m := if n == i then n + 1 else i;
      LowIs(ents, m, if ents[n].commit then Min(lo, Off(ents, n)) else lo)
  {
  }

  lemma HighNext(ents: seq<Entry>, n: nat, j: nat, hi: nat)
    requires n <= j && HighIs(ents, j, hi) && n < |ents|
    ensures if ents[n].commit then HighIs(ents, n + 1, Off(ents, n + 1))
            else HighIs(ents, if n == j then n + 1 else j, hi)
  {
    forall m | 0 <= m <= n + 1 ensures Off(ents, m) <= Off(ents, n + 1) { OffOrder(ents, m, n + 1); }
  }

  /** One entry further, met for the first time or replayed. */
  lemma BoundsNext(ents: seq<Entry>, n: nat, b: Bounds)
    requires BoundsOk(ents, n, b) && n < |ents|
    ensures BoundsOk(ents, n + 1, if ents[n].commit then Bounds(Min(b.lo, Off(ents, n)), Off(ents, n + 1)) else b)
  {
    hide LowIs, HighIs;
    var i :| n <= i && LowIs(ents, i, b.lo);
    var j :| n <= j && HighIs(ents, j, b.hi);
    LowNext(ents, n, i, b.lo);
    HighNext(ents, n, j, b.hi);
  }

  lemma BoundsExact(ents: seq<Entry>, b: Bounds)
    requires BoundsOk(ents, |ents|, b)
    ensures LowIs(ents, |ents|, b.lo) && HighIs(ents, |ents|, b.hi)
  {
  }

  lemma NoneYet(ents: seq<Entry>)
    ensures BoundsOk(ents, 0, NoCommits)
  {
    assert LowIs(ents, 0, MAX64) && HighIs(ents, 0, 0);
  }

  /** `SELECT MIN(offset), MAX(offset+len) .. offset+len > lo AND offset+len <= hi AND kind=1`. */
  ghost predicate SpanIs(rows: map<Sha, Row>, lo: nat, hi: nat, b: Bounds) {
    && (forall x :: x in EndingIn(rows, lo, hi) && rows[x].commit ==>
         b.lo <= rows[x].offset && rows[x].offset + rows[x].len <= b.hi)
    && (b.lo == MAX64 || exists x :: x in EndingIn(rows, lo, hi) && rows[x].commit && b.lo == rows[x].offset)
    && (b.hi == 0 || exists x :: x in EndingIn(rows, lo, hi) && rows[x].commit && b.hi == rows[x].offset + rows[x].len)
  }

  method CommitSpan(rows: map<Sha, Row>, lo: nat, hi: nat) returns (b: Bounds)
    ensures SpanIs(rows, lo, hi, b)
  {
    var todo, all := EndingIn(rows, lo, hi), EndingIn(rows, lo, hi);
    b := NoCommits;
    while todo != {}
      invariant todo <= all
      invariant forall x :: x in all && x !in todo && rows[x].commit ==>
        b.lo <= rows[x].offset && rows[x].offset + rows[x].len <= b.hi
      invariant b.lo == MAX64 || exists x :: x in all && rows[x].commit && b.lo == rows[x].offset
      invariant b.hi == 0 || exists x :: x in all && rows[x].commit && b.hi == rows[x].offset + rows[x].len
      decreases todo
    {
      var x :| x in todo;
      todo := todo - {x};
      if rows[x].commit { b := Bounds(Min(b.lo, rows[x].offset), Max(b.hi, rows[x].offset + rows[x].len)); }
    }
  }

  lemma LowTail(ents: seq<Entry>, rows: map<Sha, Row>, b: nat, k: nat, lo: nat, hi: nat, t: Bounds, i: nat, low: nat)
    requires TailRows(ents, rows, b, k, lo, hi) && SpanIs(rows, lo, hi, t) && b <= i && LowIs(ents, i, low)
    ensures LowIs(ents, Max(i, k), Min(low, t.lo))
  {
    forall j | 0 <= j < Max(i, k) && ents[j].commit ensures Min(low, t.lo) <= Off(ents, j) {
      if j >= i { assert ents[j].sha in ShasOf(ents, b, k); }
    }
    if Min(low, t.lo) != MAX64 && Min(low, t.lo) != low {
      var x :| x in EndingIn(rows, lo, hi) && rows[x].commit && t.lo == rows[x].offset;
      var j :| b <= j < k && ents[j].sha == x;
      assert ents[j].commit && t.lo == Off(ents, j);
    }
  }

  lemma HighTail(ents: seq<Entry>, rows: map<Sha, Row>, b: nat, k: nat, lo: nat, hi: nat, t: Bounds, i: nat, high: nat)
    requires TailRows(ents, rows, b, k, lo, hi) && SpanIs(rows, lo, hi, t) && b <= i && HighIs(ents, i, high)
    ensures HighIs(ents, Max(i, k), Max(high, t.hi))
  {
    forall j | 0 <= j < Max(i, k) && ents[j].commit ensures Off(ents, j + 1) <= Max(high, t.hi) {
      if j >= i {
        assert ents[j].sha in ShasOf(ents, b, k);
        OffNext(ents, j);
      }
    }
    if Max(high, t.hi) != 0 && Max(high, t.hi) != high {
      var x :| x in EndingIn(rows, lo, hi) && rows[x].commit && t.hi == rows[x].offset + rows[x].len;
      var j :| b <= j < k && ents[j].sha == x;
      OffNext(ents, j);
      assert ents[j].commit && t.hi == Off(ents, j + 1);
    }
  }

  /** Folding a tail's commits back in brings the bounds to the scan cursor. */
  lemma BoundsTail(ents: seq<Entry>, rows: map<Sha, Row>, b: nat, k: nat, lo: nat, hi: nat, t: Bounds, c: Bounds)
    requires TailRows(ents, rows, b, k, lo, hi) && SpanIs(rows, lo, hi, t) && BoundsOk(ents, b, c)
    ensures BoundsOk(ents, k, Bounds(Min(c.lo, t.lo), Max(c.hi, t.hi)))
  {
    hide LowIs, HighIs, TailRows, SpanIs;
    var i :| b <= i && LowIs(ents, i, c.lo);
    var j :| b <= j && HighIs(ents, j, c.hi);
    LowTail(ents, rows, b, k, lo, hi, t, i, c.lo);
    HighTail(ents, rows, b, k, lo, hi, t, j, c.hi);
  }

  // ---- what a slice leaves behind ---------------------------------------------------

  /** `gc.pos`: the scan cursor, the writer's checkpoint, how long a tail was saved beside
      it, and the boundary a replay starts from if that tail is lost. */
  datatype Pos = Pos(ci: nat, idx: nat, frag: nat, st: Option<Ckpt>, tail: nat, bci: nat, bidx: nat, bfrag: nat)

  /** What survives a slice: `gc.pos`, the uploaded parts `gc_parts` names, `gc_tail`, and
      the new pack's index rows. */
  datatype Saved = Saved(pos: Pos, parts: seq<seq<Byte>>, tail: seq<Byte>, rows: map<Sha, Row>)

  /** Fragment size, and the largest entry copied whole. */
  const SPAN := 0x80_0000

  const Nothing := Saved(Pos(0, 0, 0, None, 0, 0, 0, 0), [], [], map[])

  /** `ck` covers exactly the parts, and they are a prefix of the straight copy. */
  ghost predicate CkptOk(ents: seq<Entry>, size: nat, alg: Alg, ck: Ckpt, parts: seq<seq<Byte>>) {
    && Uniform(parts, size)
    && ck.pos == |Concat(parts)| && Concat(parts) <= Straight(ents)
    && Absorbed(ck.hash, Concat(parts)) && ck.hash.alg == alg
    && ck.expected == |ents|
  }

  ghost predicate TailOk(ents: seq<Entry>, size: nat, sv: Saved, d: nat) {
    var p := sv.pos;
    var k := Rank(ents, p.ci, p.idx);
    && FragOk(ents, p.ci, p.idx, p.frag) && Partial(ents, p.ci, p.idx, p.frag)
    && Off(ents, k) + p.frag == d + p.tail && p.tail < size
    && Partial(ents, p.bci, p.bidx, p.bfrag)
    && d + p.tail <= |Straight(ents)|
    && (|sv.tail| == p.tail ==> sv.tail == Straight(ents)[d..d + p.tail])
  }

  ghost predicate SavedOk(ents: seq<Entry>, size: nat, alg: Alg, sv: Saved) {
    var p := sv.pos;
    && RowsCorrect(ents, sv.rows)
    && RowsUpTo(ents, sv.rows, Rank(ents, p.ci, p.idx))
    && match p.st
       case None => p.ci == 0 && p.idx == 0 && p.frag == 0 && p.tail == 0
       case Some(ck) =>
         && CkptOk(ents, size, alg, ck, sv.parts) && BoundsOk(ents, ck.count, ck.commits)
         && (if p.tail == 0 then Boundary(ents, p.ci, p.idx, p.frag, ck.pos, ck.count)
             else Boundary(ents, p.bci, p.bidx, p.bfrag, ck.pos, ck.count) && TailOk(ents, size, sv, ck.pos))
  }
}
