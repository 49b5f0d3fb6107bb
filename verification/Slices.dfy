/** One slice of the build, and any number of them: every one starts from what the last
    left, and the finished pack is the straight copy. */
module Slices {
  import opened Repository
  import opened Hashing
  import opened PackWriting
  import opened Building

  /** One appended entry's extent in the new pack. */
  datatype Span = Span(ci: nat, idx: nat, ord: nat, off: nat, len: nat)

  function SpanOf(ents: seq<Entry>, k: nat): Span
    requires k < |ents|
  {
    Span(ents[k].ci, ents[k].idx, k, Off(ents, k), |ents[k].bytes|)
  }

  predicate Holds(s: Span, d: nat) {
    s.off <= d < s.off + s.len
  }

  method FindSpan(spans: seq<Span>, d: nat) returns (r: Option<Span>)
    ensures r.Some? ==> r.value in spans && Holds(r.value, d)
    ensures r.None? ==> forall s :: s in spans ==> !Holds(s, d)
  {
    for i := 0 to |spans|
      invariant forall j :: 0 <= j < i ==> !Holds(spans[j], d)
    {
      if Holds(spans[i], d) { return Some(spans[i]); }
    }
    return None;
  }

  /** The spans are those of the last entries before the cursor. */
  ghost predicate SpansOk(ents: seq<Entry>, spans: seq<Span>, k: nat) {
    |spans| <= k <= |ents| && forall i :: 0 <= i < |spans| ==> spans[i] == SpanOf(ents, k - |spans| + i)
  }

  /** A durable boundary inside those entries lies inside one of their spans. */
  lemma {:induction false} SpanHit(ents: seq<Entry>, spans: seq<Span>, k: nat, d: nat)
    requires SpansOk(ents, spans, k) && Off(ents, k - |spans|) <= d < Off(ents, k)
    ensures exists s :: s in spans && Holds(s, d)
    decreases |spans|
  {
    if spans != [] {
      OffNext(ents, k - 1);
      if d < Off(ents, k - 1) {
        SpanHit(ents, spans[..|spans| - 1], k - 1, d);
      } else {
        assert Holds(spans[|spans| - 1], d);
      }
    }
  }

  // ---- the slice's state ------------------------------------------------------------

  /** The slice's variables, and what it has persisted. */
  datatype Slice = Slice(pos: Pos, ordinal: nat, staged: map<Sha, Row>, spans: seq<Span>, cur: Option<Span>,
                         disk: Saved)

  /** Where the slice started: `d` bytes durable, `at` bytes copied, `k` entries complete. */
  datatype Origin = Origin(d: nat, at: nat, k: nat)

  /** `all` is the straight copy up to this cursor. */
  ghost predicate CopiedTo(ents: seq<Entry>, all: seq<Byte>, count: nat, ci: nat, idx: nat, frag: nat) {
    && all <= Straight(ents)
    && count == Rank(ents, ci, idx) && FragOk(ents, ci, idx, frag)
    && |all| == Off(ents, count) + frag
  }

  ghost predicate RowsCovered(ents: seq<Entry>, staged: map<Sha, Row>, rows: map<Sha, Row>, k: nat)
    requires k <= |ents|
  {
    RowsCorrect(ents, rows) && RowsCorrect(ents, staged) && RowsUpTo(ents, staged + rows, k)
  }

  /** The spans reach from the first entry that may still hold the boundary up to the
      cursor, the entry in flight excepted. */
  ghost predicate Spanned(ents: seq<Entry>, spans: seq<Span>, cur: Option<Span>, ci: nat, idx: nat, frag: nat, d: nat,
                          offset: nat, o: Origin) {
    var k := Rank(ents, ci, idx);
    && SpansOk(ents, spans, k)
    && (cur.Some? ==> k < |ents| && cur.value == SpanOf(ents, k) && ci == cur.value.ci && idx == cur.value.idx)
    && (cur.None? && frag > 0 ==> spans == [] && k == o.k && offset == o.at)
    && o.k + |spans| <= k && (o.k + |spans| == k || Off(ents, k - |spans|) <= d)
    && Off(ents, o.k) <= o.at <= offset
  }

  /** Until something drains, the boundary is the one the slice was loaded with. */
  ghost predicate Loaded(ents: seq<Entry>, st: Option<Ckpt>, bci: nat, bidx: nat, bfrag: nat, d: nat, size: nat,
                         o: Origin) {
    && (d == o.d || d >= o.at) && o.d <= o.at < o.d + size
    && (d == o.d && 0 < o.d < o.at ==>
      && st.Some? && st.value.pos == o.d
      && Boundary(ents, bci, bidx, bfrag, o.d, st.value.count)
      && Partial(ents, bci, bidx, bfrag))
  }

  /** The writer holds the straight copy up to the cursor. */
  ghost predicate Copied(ents: seq<Entry>, alg: Alg, w: PackWriter, s: Slice)
    reads w
  {
    && w.Valid() && w.partSize > 12 && w.expected == |ents| && w.hash.alg == alg && s.ordinal == w.count
    && CopiedTo(ents, w.contents, w.count, s.pos.ci, s.pos.idx, s.pos.frag)
    && BoundsOk(ents, w.count, w.commits)
  }

  /** Every durable boundary this slice can meet is in its spans, in the entry in flight,
      or is the one it was loaded with. */
  ghost predicate Tracked(ents: seq<Entry>, o: Origin, w: PackWriter, s: Slice)
    reads w
  {
    && Spanned(ents, s.spans, s.cur, s.pos.ci, s.pos.idx, s.pos.frag, |w.durable|, w.offset, o)
    && Loaded(ents, s.pos.st, s.pos.bci, s.pos.bidx, s.pos.bfrag, |w.durable|, w.partSize, o)
  }

  ghost function At(ents: seq<Entry>, s: Slice): (k: nat)
    ensures k <= |ents|
  {
    Rank(ents, s.pos.ci, s.pos.idx)
  }

  ghost predicate Persisted(ents: seq<Entry>, alg: Alg, size: nat, s: Slice) {
    RowsCovered(ents, s.staged, s.disk.rows, At(ents, s)) && SavedOk(ents, size, alg, s.disk)
  }

  ghost predicate Good(ents: seq<Entry>, alg: Alg, o: Origin, w: PackWriter, s: Slice)
    reads w
  {
    Copied(ents, alg, w, s) && Tracked(ents, o, w, s) && Persisted(ents, alg, w.partSize, s)
  }

  lemma FragmentCopied(ents: seq<Entry>, all: seq<Byte>, count: nat, ci: nat, idx: nat, frag: nat, n: nat)
    requires CopiedTo(ents, all, count, ci, idx, frag) && count < |ents| && ents[count].ci == ci
    requires ents[count].idx == idx
    requires frag + n <= |ents[count].bytes|
    ensures CopiedTo(ents, all + ents[count].bytes[frag..frag + n], count, ci, idx, frag + n)
  {
    CopyMore(ents, all, count, frag, n);
  }

  lemma EntryCopied(ents: seq<Entry>, all: seq<Byte>, count: nat, ci: nat, idx: nat, frag: nat)
    requires Ordered(ents) && CopiedTo(ents, all, count, ci, idx, frag)
    requires count < |ents| && ents[count].ci == ci && ents[count].idx == idx && frag == |ents[count].bytes|
    ensures CopiedTo(ents, all, count + 1, ci, idx + 1, 0)
  {
    RankAt(ents, count);
    OffNext(ents, count);
  }

  lemma EntrySpanned(ents: seq<Entry>, spans: seq<Span>, cur: Option<Span>, ci: nat, idx: nat, frag: nat, d: nat,
                     offset: nat, o: Origin)
    requires Ordered(ents) && Spanned(ents, spans, cur, ci, idx, frag, d, offset, o)
    requires var k := Rank(ents, ci, idx); k < |ents| && ents[k].ci == ci && ents[k].idx == idx
    ensures Spanned(ents, spans + [SpanOf(ents, Rank(ents, ci, idx))], None, ci, idx + 1, 0, d, offset, o)
  {
    RankAt(ents, Rank(ents, ci, idx));
  }

  /** Copying on from inside entry k stays on the straight copy. */
  lemma CopyMore(ents: seq<Entry>, all: seq<Byte>, k: nat, frag: nat, n: nat)
    requires k < |ents| && all <= Straight(ents) && |all| == Off(ents, k) + frag && frag + n <= |ents[k].bytes|
    ensures all + ents[k].bytes[frag..frag + n] <= Straight(ents)
  {
    EntryAt(ents, k);
    OffNext(ents, k);
    SpliceAt(Straight(ents), all, Off(ents, k), ents[k].bytes, frag, n);
  }

  lemma RowStaged(ents: seq<Entry>, staged: map<Sha, Row>, rows: map<Sha, Row>, k: nat)
    requires k < |ents| && RowsCovered(ents, staged, rows, k)
    ensures RowsCovered(ents, staged[ents[k].sha := RowOf(ents, k)], rows, k + 1)
  {
    assert ShasOf(ents, 0, k + 1) == ShasOf(ents, 0, k) + {ents[k].sha};
  }

  lemma RowsMerge(ents: seq<Entry>, staged: map<Sha, Row>, rows: map<Sha, Row>)
    requires RowsCorrect(ents, staged) && RowsCorrect(ents, rows)
    ensures RowsCorrect(ents, staged + rows)
  {
  }

  lemma RowsGrow(ents: seq<Entry>, size: nat, alg: Alg, sv: Saved, rows: map<Sha, Row>)
    requires SavedOk(ents, size, alg, sv) && RowsCorrect(ents, rows) && sv.rows.Keys <= rows.Keys
    ensures SavedOk(ents, size, alg, sv.(rows := rows))
  {
  }

  lemma RowsFewer(ents: seq<Entry>, rows: map<Sha, Row>, j: nat, k: nat)
    requires j <= k <= |ents| && RowsUpTo(ents, rows, k)
    ensures RowsUpTo(ents, rows, j)
  {
  }

  /** What a yield writes is a state the next slice can start from. */
  lemma YieldOk(ents: seq<Entry>, size: nat, alg: Alg, pp: Pos, parts: seq<seq<Byte>>, part: seq<Byte>,
                rows: map<Sha, Row>)
    requires NonEmpty(ents) && pp.st.Some? && CkptOk(ents, size, alg, pp.st.value, parts)
    requires BoundsOk(ents, pp.st.value.count, pp.st.value.commits)
    requires RowsCorrect(ents, rows) && RowsUpTo(ents, rows, Rank(ents, pp.ci, pp.idx))
    requires Concat(parts) + part <= Straight(ents) && |part| == pp.tail < size
    requires FragOk(ents, pp.ci, pp.idx, pp.frag) && (pp.tail > 0 ==> Partial(ents, pp.ci, pp.idx, pp.frag))
    requires Off(ents, Rank(ents, pp.ci, pp.idx)) + pp.frag == pp.st.value.pos + pp.tail
    requires Boundary(ents, pp.bci, pp.bidx, pp.bfrag, pp.st.value.pos, pp.st.value.count)
    requires if pp.tail > 0 then Partial(ents, pp.bci, pp.bidx, pp.bfrag)
             else pp.bci == pp.ci && pp.bidx == pp.idx && pp.bfrag == pp.frag
    ensures SavedOk(ents, size, alg, Saved(pp, parts, part, rows))
  {
    Cut(Straight(ents), Concat(parts), part);
  }

  /** And so is what a mid-slice checkpoint writes. */
  lemma RewoundOk(ents: seq<Entry>, size: nat, alg: Alg, pp: Pos, parts: seq<seq<Byte>>, tail: seq<Byte>,
                  rows: map<Sha, Row>, k: nat)
    requires pp.st.Some? && CkptOk(ents, size, alg, pp.st.value, parts) && pp.tail == 0
    requires BoundsOk(ents, pp.st.value.count, pp.st.value.commits)
    requires Rank(ents, pp.ci, pp.idx) <= k <= |ents| && RowsCorrect(ents, rows) && RowsUpTo(ents, rows, k)
    requires Boundary(ents, pp.ci, pp.idx, pp.frag, pp.st.value.pos, pp.st.value.count)
    ensures SavedOk(ents, size, alg, Saved(pp, parts, tail, rows))
  {
    RowsFewer(ents, rows, Rank(ents, pp.ci, pp.idx), k);
  }

  /** A boundary inside entry b is the cursor that replays from it. */
  lemma SpanBoundary(ents: seq<Entry>, b: nat, d: nat)
    requires Ordered(ents) && b < |ents| && Holds(SpanOf(ents, b), d)
    ensures Boundary(ents, ents[b].ci, ents[b].idx, d - Off(ents, b), d, b)
    ensures Partial(ents, ents[b].ci, ents[b].idx, d - Off(ents, b))
  {
    RankAt(ents, b);
    OffOrder(ents, 0, b);
  }

  /** No entry is complete but for its row, unless everything is durable. */
  ghost predicate Settled(ents: seq<Entry>, w: PackWriter, s: Slice)
    reads w
  {
    Partial(ents, s.pos.ci, s.pos.idx, s.pos.frag) || |w.durable| == w.offset
  }

  // ---- copying ----------------------------------------------------------------------

  ghost predicate OnEntry(ents: seq<Entry>, s: Slice) {
    var k := At(ents, s);
    k < |ents| && s.pos.ci == ents[k].ci && s.pos.idx == ents[k].idx
  }

  /** Put the cursor on the next entry: any checkpoint from now on names it. */
  method Seek(ents: seq<Entry>, w: PackWriter, s: Slice, ghost alg: Alg, ghost o: Origin) returns (t: Slice)
    requires Ordered(ents) && Good(ents, alg, o, w, s) && At(ents, s) < |ents| && s.cur.None?
    ensures Good(ents, alg, o, w, t) && OnEntry(ents, t)
    ensures t == s.(pos := s.pos.(ci := t.pos.ci, idx := t.pos.idx)) && At(ents, t) == At(ents, s)
  {
    hide BoundsOk, Absorbed, SavedOk;
    var k := Rank(ents, s.pos.ci, s.pos.idx);
    RankAt(ents, k);
    t := s.(pos := s.pos.(ci := ents[k].ci, idx := ents[k].idx));
  }

  /** Note the entry under the cursor as in flight. */
  method Open(ents: seq<Entry>, w: PackWriter, s: Slice, ghost alg: Alg, ghost o: Origin) returns (t: Slice)
    requires Good(ents, alg, o, w, s) && OnEntry(ents, s) && s.cur.None?
    ensures Good(ents, alg, o, w, t) && t.cur.Some? && t == s.(cur := t.cur)
  {
    var k := Rank(ents, s.pos.ci, s.pos.idx);
    t := s.(cur := Some(Span(s.pos.ci, s.pos.idx, s.ordinal, w.offset - s.pos.frag, |ents[k].bytes|)));
  }

  /** Stream the next fragment of the entry in flight. */
  method Fragment(ents: seq<Entry>, w: PackWriter, s: Slice, ghost alg: Alg, ghost o: Origin) returns (t: Slice)
    requires Good(ents, alg, o, w, s) && s.cur.Some? && s.pos.frag < s.cur.value.len
    modifies w`part, w`offset, w`contents
    ensures Good(ents, alg, o, w, t)
    ensures t == s.(pos := s.pos.(frag := t.pos.frag)) && s.pos.frag < t.pos.frag <= s.cur.value.len
  {
    hide Absorbed;
    var frag, e := s.pos.frag, ents[Rank(ents, s.pos.ci, s.pos.idx)];
    var n := if |e.bytes| - frag < SPAN then |e.bytes| - frag else SPAN;
    FragmentCopied(ents, w.contents, w.count, s.pos.ci, s.pos.idx, frag, n);
    w.RawExtend(e.bytes[frag..frag + n]);
    t := s.(pos := s.pos.(frag := frag + n));
  }

  /** Seal the entry in flight: its row and span, and the cursor past it. */
  method Seal(ents: seq<Entry>, w: PackWriter, s: Slice, ghost alg: Alg, ghost o: Origin) returns (t: Slice)
    requires Ordered(ents) && Good(ents, alg, o, w, s) && s.cur.Some? && s.pos.frag == s.cur.value.len
    modifies w`count, w`commits
    ensures Good(ents, alg, o, w, t) && t.cur.None? && At(ents, t) == At(ents, s) + 1 && t.pos.frag == 0
  {
    hide Absorbed, BoundsOk, SavedOk, RowsCovered, Loaded;
    var k, start := Rank(ents, s.pos.ci, s.pos.idx), w.offset - s.pos.frag;
    EntryCopied(ents, w.contents, k, s.pos.ci, s.pos.idx, s.pos.frag);
    EntrySpanned(ents, s.spans, s.cur, s.pos.ci, s.pos.idx, s.pos.frag, |w.durable|, w.offset, o);
    RowStaged(ents, s.staged, s.disk.rows, k);
    BoundsNext(ents, k, w.commits);
    var len := w.RawEntryDone(ents[k].commit, start);
    t := Slice(s.pos.(idx := s.pos.idx + 1, frag := 0), s.ordinal + 1,
               s.staged[ents[k].sha := Row(s.ordinal, start, len, ents[k].commit)], s.spans + [s.cur.value], None,
                 s.disk);
  }

  /** Copy the entry under the cursor whole. */
  method Append(ents: seq<Entry>, w: PackWriter, s: Slice, ghost alg: Alg, ghost o: Origin) returns (t: Slice)
    requires Ordered(ents) && Good(ents, alg, o, w, s) && OnEntry(ents, s) && s.cur.None? && s.pos.frag == 0
    modifies w`part, w`offset, w`count, w`commits, w`contents
    ensures Good(ents, alg, o, w, t) && t.cur.None? && At(ents, t) == At(ents, s) + 1 && t.pos.frag == 0
  {
    hide Absorbed, BoundsOk, SavedOk, RowsCovered, Loaded;
    var k := Rank(ents, s.pos.ci, s.pos.idx);
    var e := ents[k];
    assert e.bytes == e.bytes[0..|e.bytes|];
    FragmentCopied(ents, w.contents, k, s.pos.ci, s.pos.idx, 0, |e.bytes|);
    EntryCopied(ents, w.contents + e.bytes, k, s.pos.ci, s.pos.idx, |e.bytes|);
    EntrySpanned(ents, s.spans, s.cur, s.pos.ci, s.pos.idx, 0, |w.durable|, w.offset, o);
    RowStaged(ents, s.staged, s.disk.rows, k);
    BoundsNext(ents, k, w.commits);
    var start := w.AppendStored(e.commit, e.bytes);
    t := Slice(s.pos.(idx := e.idx + 1), s.ordinal + 1, s.staged[e.sha := Row(s.ordinal, start, |e.bytes|, e.commit)],
               s.spans + [Span(e.ci, e.idx, s.ordinal, start, |e.bytes|)], None, s.disk);
  }

  // ---- checkpoints ------------------------------------------------------------------

  /** Upload every full part: the durable boundary moves, and nothing else. */
  method Upload(ents: seq<Entry>, w: PackWriter, s: Slice, ghost alg: Alg, ghost o: Origin) returns (some: bool)
    requires Good(ents, alg, o, w, s)
    modifies w`part, w`parts, w`hash, w`durable
    ensures Good(ents, alg, o, w, s) && |w.part| < w.partSize && (some ==> |w.durable| >= o.at)
    ensures |w.durable| >= old(|w.durable|)
  {
    hide Absorbed;
    some := false;
    while |w.part| >= w.partSize
      invariant w.Valid() && w.hash.alg == alg
      invariant if some then |w.durable| >= old(|w.durable|) + w.partSize
                else (w.part == old(w.part) && w.parts == old(w.parts) && w.hash == old(w.hash)
                      && w.durable == old(w.durable))
      decreases |w.part|
    {
      some := w.Checkpoint();
    }
  }

  /** The entry a durable boundary falls in: in flight, appended by this slice, or
      (nothing drained since the slice began) not known to it. */
  method Locate(ents: seq<Entry>, w: PackWriter, s: Slice, d: nat, ghost alg: Alg, ghost o: Origin)
    returns (hit: Option<Span>)
    requires Copied(ents, alg, w, s) && Tracked(ents, o, w, s) && d == |w.durable| < w.offset
    ensures hit.Some? ==>
      var b := hit.value.ord;
      b <= At(ents, s) && b < |ents| && hit.value == SpanOf(ents, b) && Holds(hit.value, d)
    ensures hit.None? ==> d == o.d < o.at
  {
    hide BoundsOk, Absorbed;
    if s.cur.Some? && d >= s.cur.value.off {
      hit := s.cur;
    } else {
      ghost var k := At(ents, s);
      hit := FindSpan(s.spans, d);
      if hit.None? && Off(ents, k - |s.spans|) <= d {
        if d < Off(ents, k) { SpanHit(ents, s.spans, k, d); }
        OffOrder(ents, o.k, k - |s.spans|);
      }
    }
  }

  /** The position to persist for the durable boundary `d`: the scan cursor with the boundary
      beside it at a yield, the boundary itself in mid-slice. Every boundary is found. */
  method Mark(ents: seq<Entry>, w: PackWriter, s: Slice, d: nat, persist: bool, ghost alg: Alg, ghost o: Origin)
    returns (pp: Pos, count: nat, err: bool)
    requires Ordered(ents) && Copied(ents, alg, w, s) && Tracked(ents, o, w, s) && d == |w.durable|
    requires !persist ==> d >= o.at
    ensures !err
    ensures persist ==>
      && pp.ci == s.pos.ci && pp.idx == s.pos.idx && pp.frag == s.pos.frag
      && Boundary(ents, pp.bci, pp.bidx, pp.bfrag, d, count)
      && (if d < w.offset then Partial(ents, pp.bci, pp.bidx, pp.bfrag)
          else pp.bci == pp.ci && pp.bidx == pp.idx && pp.bfrag == pp.frag)
    ensures !persist ==> Boundary(ents, pp.ci, pp.idx, pp.frag, d, count)
    ensures Rank(ents, pp.ci, pp.idx) <= At(ents, s) && count <= At(ents, s)
  {
    pp, count, err := s.pos, w.count, false;
    OffOrder(ents, 0, At(ents, s));
    if d < w.offset {
      var hit := Locate(ents, w, s, d, alg, o);
      match hit {
        case Some(e) =>
          SpanBoundary(ents, e.ord, d);
          count := e.ord;
          pp := pp.(bci := e.ci, bidx := e.idx, bfrag := d - e.off);
          if !persist {
            pp := pp.(ci := e.ci, idx := e.idx, frag := d - e.off);
          }
        case None =>
          if persist && d == 0 {
            pp := pp.(bci := 0, bidx := 0, bfrag := 0);
            count := 0;
          } else if persist && s.pos.st.Some? && s.pos.st.value.pos == d {
            count := s.pos.st.value.count;
            CountBehind(ents, count, d, At(ents, s), s.pos.frag);
          } else {
            err := true;
          }
      }
    } else if persist {
      pp := pp.(bci := pp.ci, bidx := pp.idx, bfrag := pp.frag);
    }
  }

  lemma CountBehind(ents: seq<Entry>, b: nat, d: nat, k: nat, frag: nat)
    requires b <= |ents| && k <= |ents| && Off(ents, b) <= d < Off(ents, k) + frag
    requires frag > 0 ==> k < |ents| && frag <= |ents[k].bytes|
    ensures b <= k
  {
    if k < b { OffOrder(ents, k + 1, b); }
  }

  /** Rows land before the cursor that claims them; a row already there stays. */
  method PostRows(ents: seq<Entry>, size: nat, s: Slice, ghost alg: Alg) returns (t: Slice)
    requires Persisted(ents, alg, size, s)
    ensures Persisted(ents, alg, size, t) && RowsUpTo(ents, t.disk.rows, At(ents, s)) && RowsCorrect(ents, t.disk.rows)
    ensures t == s.(staged := map[], disk := s.disk.(rows := s.staged + s.disk.rows))
  {
    hide BoundsOk, Absorbed;
    RowsMerge(ents, s.staged, s.disk.rows);
    RowsGrow(ents, size, alg, s.disk, s.staged + s.disk.rows);
    t := s.(staged := map[], disk := s.disk.(rows := s.staged + s.disk.rows));
    assert map[] + t.disk.rows == t.disk.rows;
  }

  /** The checkpoint describes the uploaded prefix. */
  lemma SnapshotOk(ents: seq<Entry>, w: PackWriter, s: Slice, alg: Alg)
    requires Copied(ents, alg, w, s)
    ensures CkptOk(ents, w.partSize, alg, w.Snapshot(), w.parts) && w.Snapshot().pos == |w.durable|
    ensures |w.durable| + |w.part| == Off(ents, At(ents, s)) + s.pos.frag && Concat(w.parts) + w.part <= Straight(ents)
  {
    Cut(Straight(ents), w.durable, w.part);
  }

  /** Spans behind the durable boundary cannot hold a later one. */
  method PopSpans(ents: seq<Entry>, w: PackWriter, s: Slice, d: nat, ghost o: Origin) returns (t: Slice)
    requires Tracked(ents, o, w, s) && d == |w.durable|
    ensures Tracked(ents, o, w, t) && t == s.(spans := t.spans)
  {
    t := s;
    ghost var k := At(ents, s);
    while t.spans != [] && t.spans[0].off + t.spans[0].len <= d
      invariant Tracked(ents, o, w, t) && t == s.(spans := t.spans)
      decreases |t.spans|
    {
      OffNext(ents, k - |t.spans|);
      t := t.(spans := t.spans[1..]);
    }
  }

  /** Mid-slice: upload full parts and, if there were any, persist rows, parts and the
      boundary in one span. */
  method Flush(ents: seq<Entry>, w: PackWriter, s: Slice, ghost alg: Alg, ghost o: Origin) returns (t: Slice, err: bool)
    requires Ordered(ents) && Good(ents, alg, o, w, s)
    modifies w`part, w`parts, w`hash, w`durable
    ensures !err && Good(ents, alg, o, w, t) && t.cur == s.cur && t.pos == s.pos.(st := t.pos.st)
  {
    var some := Upload(ents, w, s, alg, o);
    if !some { return s, false; }
    SnapshotOk(ents, w, s, alg);
    var st := w.Snapshot();
    var pp, count;
    pp, count, err := Mark(ents, w, s, st.pos, false, alg, o);
    t := PostRows(ents, w.partSize, s, alg);
    BoundsFewer(ents, w.count, count, w.commits);
    st := st.(count := count);
    pp := pp.(st := Some(st), tail := 0);
    RewoundOk(ents, w.partSize, alg, pp, w.parts, t.disk.tail, t.disk.rows, At(ents, s));
    t := t.(pos := s.pos.(st := Some(st)), disk := Saved(pp, w.parts, t.disk.tail, t.disk.rows));
    t := PopSpans(ents, w, t, st.pos, o);
  }

  /** At a yield: also persist the buffered tail. What is left is a state to resume from. */
  method Yield(ents: seq<Entry>, w: PackWriter, s: Slice, ghost alg: Alg, ghost o: Origin)
    returns (disk: Saved, err: bool)
    requires Input(ents) && Good(ents, alg, o, w, s) && Settled(ents, w, s)
    modifies w`part, w`parts, w`hash, w`durable
    ensures !err && SavedOk(ents, w.partSize, alg, disk)
  {
    var some := Upload(ents, w, s, alg, o);
    SnapshotOk(ents, w, s, alg);
    var st := w.Snapshot();
    var pp, count;
    pp, count, err := Mark(ents, w, s, st.pos, true, alg, o);
    var t := PostRows(ents, w.partSize, s, alg);
    BoundsFewer(ents, w.count, count, w.commits);
    pp := pp.(st := Some(st.(count := count)), tail := |w.part|);
    YieldOk(ents, w.partSize, alg, pp, w.parts, w.part, t.disk.rows);
    disk := Saved(pp, w.parts, w.part, t.disk.rows);
  }

  lemma PartsLonger(parts: seq<seq<Byte>>, more: seq<seq<Byte>>, size: nat)
    requires Uniform(parts, size) && Uniform(more, size) && size > 0 && more != []
    ensures |Concat(parts + more)| > |Concat(parts)|
  {
    UniformLength(parts, size);
    UniformLength(parts + more, size);
    assert (|parts| + |more|) * size == |parts| * size + |more| * size;
  }

  lemma TailCut(ents: seq<Entry>, size: nat, alg: Alg, sv: Saved, tail: seq<Byte>)
    requires SavedOk(ents, size, alg, sv)
    requires sv.pos.st.Some? && tail != [] ==> Concat(sv.parts) + tail <= Straight(ents)
    ensures SavedOk(ents, size, alg, sv.(tail := tail))
  {
    hide RowsCorrect, RowsUpTo, Straight, Absorbed, BoundsOk, Boundary, FragOk, Partial, Off, Concat;
    if sv.pos.st.Some? && tail != [] { Cut(Straight(ents), Concat(sv.parts), tail); }
  }

  lemma PartsCut(ents: seq<Entry>, size: nat, alg: Alg, sv: Saved, more: seq<seq<Byte>>, tail: seq<Byte>)
    requires SavedOk(ents, size, alg, sv) && Uniform(more, size) && size > 0 && more != []
    ensures SavedOk(ents, size, alg, sv.(parts := sv.parts + more, tail := tail)) <==> sv.pos.st.None?
  {
    hide RowsCorrect, RowsUpTo, Straight, Absorbed, BoundsOk, Boundary, TailOk;
    if sv.pos.st.Some? { PartsLonger(sv.parts, more, size); }
  }

  /** A checkpoint writes its rows, its part rows, the tail and, last, the position.  Cut
      before the position, it leaves a state to resume from if and only if no part row was
      written or there was no earlier checkpoint: part rows past the position are taken for
      the uploaded prefix. */
  lemma CheckpointCut(ents: seq<Entry>, size: nat, alg: Alg, disk: Saved, rows: map<Sha, Row>, more: seq<seq<Byte>>,
                      k: nat, tail: seq<Byte>)
    requires SavedOk(ents, size, alg, disk) && RowsCorrect(ents, rows) && disk.rows.Keys <= rows.Keys
    requires size > 0 && Uniform(more, size) && k <= |more| && (tail != [] ==> k == |more|)
    requires disk.pos.st.Some? ==> Concat(disk.parts) + Concat(more) + tail <= Straight(ents)
    ensures SavedOk(ents, size, alg, disk.(rows := rows, parts := disk.parts + more[..k], tail := tail)) <==>
      k == 0 || disk.pos.st.None?
  {
    hide SavedOk, RowsCorrect, Straight, Concat;
    RowsGrow(ents, size, alg, disk, rows);
    var sv := disk.(rows := rows);
    if k == 0 {
      assert disk.parts + more[..0] == disk.parts;
      if more == [] { NoParts(Concat(disk.parts), more, tail); }
      TailCut(ents, size, alg, sv, tail);
    } else {
      PartsCut(ents, size, alg, sv, more[..k], tail);
    }
  }

  lemma NoParts(a: seq<Byte>, more: seq<seq<Byte>>, tail: seq<Byte>)
    requires more == []
    ensures a + Concat(more) + tail == a + tail
  {
  }

  // ---- starting a slice -------------------------------------------------------------

  /** A writer holding `all`, `d` bytes of it durable, can go on from this cursor. */
  ghost predicate Ready(ents: seq<Entry>, all: seq<Byte>, d: nat, count: nat, pos: Pos, size: nat) {
    && CopiedTo(ents, all, count, pos.ci, pos.idx, pos.frag)
    && d <= |all| < d + size
    && (Partial(ents, pos.ci, pos.idx, pos.frag) || d == |all|)
    && (0 < d < |all| ==>
      && pos.st.Some? && pos.st.value.pos == d
      && Boundary(ents, pos.bci, pos.bidx, pos.bfrag, d, pos.st.value.count)
      && Partial(ents, pos.bci, pos.bidx, pos.bfrag))
  }

  /** The boundary is not past the scan cursor. */
  lemma BoundaryBehind(ents: seq<Entry>, b: nat, d: nat, k: nat, frag: nat)
    requires b <= |ents| && k <= |ents| && (d == 0 ==> b == 0) && (d > 0 ==> Off(ents, b) <= d)
    requires d < Off(ents, k) + frag && (k < |ents| ==> Off(ents, k) + frag < Off(ents, k + 1))
    ensures b <= k
  {
    if k < b { OffOrder(ents, k + 1, b); }
  }

  lemma Within(ents: seq<Entry>, ci: nat, idx: nat, frag: nat)
    requires NonEmpty(ents) && Partial(ents, ci, idx, frag)
    ensures var k := Rank(ents, ci, idx); k < |ents| ==> Off(ents, k) + frag < Off(ents, k + 1)
  {
    var k := Rank(ents, ci, idx);
  }

  lemma TailGone(ents: seq<Entry>, size: nat, alg: Alg, sv: Saved)
    requires SavedOk(ents, size, alg, sv)
    ensures SavedOk(ents, size, alg, sv.(tail := []))
  {
  }

  /** The rows that end in the tail bring the count to the scan cursor. */
  lemma TailOrdinal(ents: seq<Entry>, rows: map<Sha, Row>, p: Pos, ck: Ckpt)
    requires Distinct(ents) && NonEmpty(ents) && p.tail > 0
    requires RowsCorrect(ents, rows) && RowsUpTo(ents, rows, Rank(ents, p.ci, p.idx))
    requires Boundary(ents, p.bci, p.bidx, p.bfrag, ck.pos, ck.count) && Partial(ents, p.bci, p.bidx, p.bfrag)
    requires Partial(ents, p.ci, p.idx, p.frag) && Off(ents, Rank(ents, p.ci, p.idx)) + p.frag == ck.pos + p.tail
    ensures ck.count + |EndingIn(rows, ck.pos, ck.pos + p.tail)| == Rank(ents, p.ci, p.idx)
    ensures TailRows(ents, rows, ck.count, Rank(ents, p.ci, p.idx), ck.pos, ck.pos + p.tail)
  {
    hide TailRows, EndingIn, RowsCorrect, RowsUpTo, Distinct;
    Within(ents, p.ci, p.idx, p.frag);
    Within(ents, p.bci, p.bidx, p.bfrag);
    BoundaryBehind(ents, ck.count, ck.pos, Rank(ents, p.ci, p.idx), p.frag);
    TailCount(ents, rows, ck.count, ck.pos, Rank(ents, p.ci, p.idx), ck.pos + p.tail);
  }

  /** How many entries completed inside a whole tail, and where the commits among them lie:
      with them it brings the writer to the scan cursor. */
  method TailEntries(ents: seq<Entry>, size: nat, ghost alg: Alg, sv: Saved) returns (n: nat, more: Bounds)
    requires Input(ents) && SavedOk(ents, size, alg, sv) && |sv.tail| == sv.pos.tail > 0
    ensures var p, ck := sv.pos, sv.pos.st.value;
      && Ready(ents, Concat(sv.parts) + sv.tail, ck.pos, ck.count + n, p.(tail := 0), size)
      && BoundsOk(ents, ck.count + n, Bounds(Min(ck.commits.lo, more.lo), Max(ck.commits.hi, more.hi)))
  {
    hide TailRows, SpanIs, BoundsOk, EndingIn, RowsCorrect, RowsUpTo, Distinct, Ordered, NonEmpty, Absorbed;
    var p, ck := sv.pos, sv.pos.st.value;
    n := |EndingIn(sv.rows, ck.pos, ck.pos + p.tail)|;
    TailOrdinal(ents, sv.rows, p, ck);
    more := CommitSpan(sv.rows, ck.pos, ck.pos + p.tail);
    BoundsTail(ents, sv.rows, ck.count, ck.count + n, ck.pos, ck.pos + p.tail, more, ck.commits);
    Splice(Straight(ents), Concat(sv.parts), sv.tail);
  }

  /** The boundary is where a replay of what was not uploaded starts. */
  lemma BoundaryReady(ents: seq<Entry>, all: seq<Byte>, p: Pos, d: nat, count: nat, size: nat)
    requires Boundary(ents, p.ci, p.idx, p.frag, d, count) && all <= Straight(ents) && size > 12
    requires |all| == if d == 0 then 12 else d
    ensures Ready(ents, all, d, count, p, size)
  {
  }

  lemma Rewound(ents: seq<Entry>, size: nat, alg: Alg, sv: Saved)
    requires Input(ents) && SavedOk(ents, size, alg, sv) && sv.pos.st.Some? && size > 12
    ensures var p := if sv.pos.tail > 0 then Rewind(sv.pos) else sv.pos;
      var ck := p.st.value;
      && Ready(ents, if ck.pos == 0 then Header(|ents|) else Concat(sv.parts), ck.pos, ck.count, p, size)
      && RowsUpTo(ents, sv.rows, ck.count)
  {
    HeaderFirst(ents);
    var p, ck := sv.pos, sv.pos.st.value;
    var all := if ck.pos == 0 then Header(|ents|) else Concat(sv.parts);
    BoundaryReady(ents, all, if p.tail > 0 then Rewind(p) else p, ck.pos, ck.count, size);
    if p.tail > 0 {
      Within(ents, p.ci, p.idx, p.frag);
      BoundaryBehind(ents, ck.count, ck.pos, Rank(ents, p.ci, p.idx), p.frag);
      RowsFewer(ents, sv.rows, ck.count, Rank(ents, p.ci, p.idx));
    }
  }

  lemma HeaderFirst(ents: seq<Entry>)
    ensures Header(|ents|) <= Straight(ents) && |Header(|ents|)| == 12 == Off(ents, 0)
  {
  }

  function Rewind(p: Pos): Pos {
    p.(ci := p.bci, idx := p.bidx, frag := p.bfrag, tail := 0)
  }

  lemma FirstReady(ents: seq<Entry>, size: nat, alg: Alg, sv: Saved)
    requires Input(ents) && SavedOk(ents, size, alg, sv) && sv.pos.st.None? && size > 12
    ensures Ready(ents, Header(|ents|), 0, 0, sv.pos, size) && RowsUpTo(ents, sv.rows, 0)
  {
    HeaderFirst(ents);
    assert Rank(ents, 0, 0) == 0;
  }

  /** Rebind the writer and fold a whole tail back in, with the `n` entries it completed. */
  method ReopenTail(ents: seq<Entry>, alg: Alg, ck: Ckpt, parts: seq<seq<Byte>>, tail: seq<Byte>, n: nat, more: Bounds,
                    size: nat)
    returns (w: PackWriter)
    requires size > 0 && CkptOk(ents, size, alg, ck, parts)
    ensures fresh(w) && w.Valid() && w.partSize == size && w.expected == |ents| && w.hash.alg == alg
    ensures w.contents == Concat(parts) + tail && |w.durable| == ck.pos && w.count == ck.count + n
    ensures w.commits == Bounds(Min(ck.commits.lo, more.lo), Max(ck.commits.hi, more.hi))
  {
    w := new PackWriter.Resume(ck, parts, size);
    w.ResumeTail(tail, n, more);
    assert w.durable == Concat(parts);
  }

  /** Rebind the writer, fold a whole tail back in, or rewind to the boundary when the
      tail is short. */
  method Reopen(ents: seq<Entry>, alg: Alg, sv: Saved, size: nat) returns (w: PackWriter, pos: Pos)
    requires Input(ents) && size > 12 && SavedOk(ents, size, alg, sv)
    ensures fresh(w) && w.Valid() && w.partSize == size && w.expected == |ents| && w.hash.alg == alg
    ensures Ready(ents, w.contents, |w.durable|, w.count, pos, size) && RowsUpTo(ents, sv.rows, w.count)
    ensures BoundsOk(ents, w.count, w.commits)
  {
    pos := sv.pos;
    if pos.st.None? {
      FirstReady(ents, size, alg, sv);
      NoneYet(ents);
      w := new PackWriter.Create(|ents|, alg, size);
    } else if |sv.tail| == pos.tail > 0 {
      var n, more := TailEntries(ents, size, alg, sv);
      w := ReopenTail(ents, alg, pos.st.value, sv.parts, sv.tail, n, more, size);
      pos := pos.(tail := 0);
    } else {
      Rewound(ents, size, alg, sv);
      w := new PackWriter.Resume(pos.st.value, sv.parts, size);
      pos := if pos.tail > 0 then Rewind(pos) else pos;
    }
  }

  /** Start a slice from what the last one left. */
  method Load(ents: seq<Entry>, alg: Alg, sv: Saved, size: nat) returns (w: PackWriter, s: Slice, ghost o: Origin)
    requires Input(ents) && size > 12 && SavedOk(ents, size, alg, sv)
    ensures fresh(w) && w.partSize == size && Good(ents, alg, o, w, s) && Settled(ents, w, s) && s.cur.None?
    ensures s.disk == sv.(tail := [])
  {
    hide BoundsOk, Absorbed;
    var pos;
    w, pos := Reopen(ents, alg, sv, size);
    TailGone(ents, size, alg, sv);
    assert map[] + sv.rows == sv.rows;
    s := Slice(pos, w.count, map[], [], None, sv.(tail := []));
    o := Origin(|w.durable|, w.offset, w.count);
  }

  // ---- slices -----------------------------------------------------------------------

  datatype Outcome = Stopped(saved: Saved) | Finished(pack: seq<Byte>, rows: map<Sha, Row>, commits: Bounds) | Failed

  /** When the slice is out of budget, when it is killed, after which entries it flushes, and
      after which it posts rows ahead of a flush: any schedule. */
  datatype Schedule = Schedule(spent: nat -> bool, killed: nat -> bool, flush: nat -> bool, post: nat -> bool)

  ghost predicate Disturbed(go: Schedule) {
    exists n :: go.spent(n) || go.killed(n)
  }

  /** One row per entry, with the entry's exact place in the finished pack. */
  ghost predicate Indexed(ents: seq<Entry>, rows: map<Sha, Row>) {
    && rows.Keys == ShasOf(ents, 0, |ents|)
    && forall k :: 0 <= k < |ents| ==> ents[k].sha in rows && rows[ents[k].sha] == RowOf(ents, k)
  }

  lemma AllIndexed(ents: seq<Entry>, rows: map<Sha, Row>)
    requires Distinct(ents) && RowsCorrect(ents, rows) && RowsUpTo(ents, rows, |ents|)
    ensures Indexed(ents, rows)
  {
    forall k | 0 <= k < |ents| ensures ents[k].sha in rows && rows[ents[k].sha] == RowOf(ents, k) {
      assert ents[k].sha in ShasOf(ents, 0, |ents|);
      RowIs(ents, rows, k);
    }
  }

  ghost predicate Refines(ents: seq<Entry>, alg: Alg, size: nat, r: Outcome) {
    match r
    case Stopped(saved) => SavedOk(ents, size, alg, saved)
    case Finished(pack, rows, commits) =>
      && pack == Straight(ents) + Digest(alg, Straight(ents)) && Indexed(ents, rows)
      && LowIs(ents, |ents|, commits.lo) && HighIs(ents, |ents|, commits.hi)
    case Failed => false
  }

  /** Input exhausted: the last rows, the tail and the trailer. */
  method Finish(ents: seq<Entry>, w: PackWriter, s: Slice, ghost alg: Alg, ghost o: Origin) returns (r: Outcome)
    requires Input(ents) && Good(ents, alg, o, w, s) && At(ents, s) == |ents|
    ensures r.Finished? && Refines(ents, alg, w.partSize, r)
  {
    var t := PostRows(ents, w.partSize, s, alg);
    AllIndexed(ents, t.disk.rows);
    WholeCopy(ents, w.contents);
    BoundsExact(ents, w.commits);
    var pack, bounds := w.Finish();
    r := if pack.Some? then Finished(pack.value, t.disk.rows, bounds) else Failed;
  }

  lemma WholeCopy(ents: seq<Entry>, all: seq<Byte>)
    requires all <= Straight(ents) && |all| >= Off(ents, |ents|)
    ensures all == Straight(ents)
  {
    BodyLength(ents, |ents|);
  }

  /** Stream an entry, fragment by fragment; false when the slice stops inside it. */
  method Stream(ents: seq<Entry>, w: PackWriter, s: Slice, go: Schedule, t0: nat, ghost alg: Alg, ghost o: Origin)
    returns (t: Slice, n: nat, stop: Option<Saved>)
    requires Input(ents) && Good(ents, alg, o, w, s) && s.cur.Some? && s.pos.frag <= s.cur.value.len
    modifies w
    ensures n >= t0
    ensures stop.Some? ==> SavedOk(ents, w.partSize, alg, stop.value) && Disturbed(go)
    ensures stop.None? ==> Good(ents, alg, o, w, t) && t.cur.None? && At(ents, t) == At(ents, s) + 1 && t.pos.frag == 0
  {
    t, n, stop := s, t0, None;
    while t.pos.frag < t.cur.value.len
      invariant Good(ents, alg, o, w, t) && t.cur == s.cur && At(ents, t) == At(ents, s)
      invariant t.pos.frag <= t.cur.value.len && n >= t0
      decreases t.cur.value.len - t.pos.frag
    {
      n := n + 1;
      if go.killed(n) { return t, n, Some(t.disk); }
      if go.spent(n) {
        var disk, err := Yield(ents, w, t, alg, o);
        return t, n, Some(disk);
      }
      t := Fragment(ents, w, t, alg, o);
      var err;
      t, err := Flush(ents, w, t, alg, o);
    }
    t := Seal(ents, w, t, alg, o);
  }

  /** Copy one entry. */
  method CopyEntry(ents: seq<Entry>, w: PackWriter, s: Slice, go: Schedule, t0: nat, ghost alg: Alg, ghost o: Origin)
    returns (t: Slice, n: nat, stop: Option<Saved>)
    requires Input(ents) && Good(ents, alg, o, w, s) && s.cur.None? && At(ents, s) < |ents|
    modifies w
    ensures stop.Some? ==> SavedOk(ents, w.partSize, alg, stop.value) && Disturbed(go)
    ensures stop.None? ==> Good(ents, alg, o, w, t) && t.cur.None? && At(ents, t) == At(ents, s) + 1 && t.pos.frag == 0
  {
    t := Seek(ents, w, s, alg, o);
    n, stop := t0, None;
    if |ents[Rank(ents, t.pos.ci, t.pos.idx)].bytes| > SPAN || t.pos.frag > 0 {
      t := Open(ents, w, t, alg, o);
      t, n, stop := Stream(ents, w, t, go, n, alg, o);
    } else {
      t := Append(ents, w, t, alg, o);
    }
  }

  /** One slice of the build from a saved state, under any schedule. */
  method BuildSlice(ents: seq<Entry>, alg: Alg, sv: Saved, size: nat, go: Schedule) returns (r: Outcome)
    requires Input(ents) && size > 12 && SavedOk(ents, size, alg, sv)
    ensures Refines(ents, alg, size, r) && (r.Stopped? ==> Disturbed(go))
  {
    var w, s, o := Load(ents, alg, sv, size);
    var n, err := 0, false;
    while Rank(ents, s.pos.ci, s.pos.idx) < |ents|
      invariant fresh(w) && w.partSize == size && Good(ents, alg, o, w, s) && Settled(ents, w, s) && s.cur.None?
      decreases |ents| - At(ents, s)
    {
      n := n + 1;
      if go.killed(n) { return Stopped(s.disk); }
      if go.spent(n) {
        var disk;
        disk, err := Yield(ents, w, s, alg, o);
        return if err then Failed else Stopped(disk);
      }
      var stop;
      s, n, stop := CopyEntry(ents, w, s, go, n, alg, o);
      if stop.Some? { return Stopped(stop.value); }
      if go.post(n) { s := PostRows(ents, size, s, alg); }
      if go.flush(n) {
        s, err := Flush(ents, w, s, alg, o);
        if err { return Failed; }
      }
    }
    r := Finish(ents, w, s, alg, o);
  }

  lemma NothingOk(ents: seq<Entry>, alg: Alg, size: nat)
    ensures SavedOk(ents, size, alg, Nothing)
  {
    assert Rank(ents, 0, 0) == 0;
  }

  /** Slices in turn, any of them losing the tail the one before saved. */
  method BuildSlices(ents: seq<Entry>, alg: Alg, size: nat, gos: seq<Schedule>, lost: nat -> bool) returns (r: Outcome)
    requires Input(ents) && size > 12
    ensures Refines(ents, alg, size, r)
    ensures r.Stopped? ==> forall i :: 0 <= i < |gos| ==> Disturbed(gos[i])
  {
    hide SavedOk;
    NothingOk(ents, alg, size);
    r := Stopped(Nothing);
    for i := 0 to |gos|
      invariant r.Stopped? && SavedOk(ents, size, alg, r.saved) && forall j :: 0 <= j < i ==> Disturbed(gos[j])
    {
      TailGone(ents, size, alg, r.saved);
      r := BuildSlice(ents, alg, if lost(i) then r.saved.(tail := []) else r.saved, size, gos[i]);
      if !r.Stopped? { return; }
    }
  }
}
