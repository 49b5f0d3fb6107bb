/** Planning the range reads that serve a pack's marked entries. The planner never looks at
    the bytes, so they are of any type. */
module Reads {
  import Bitmaps

  const WINDOW: nat := 0x80_0000
  const GAP: nat := 0x4_0000

  /** A stretch of the pack: an entry, or the part of one that a read serves. */
  datatype Loc = Loc(off: nat, len: nat)

  /** One range read, and the stretches of it to send. */
  datatype Read = Read(span: Loc, ents: seq<Loc>)

  function End(l: Loc): nat {
    l.off + l.len
  }

  ghost predicate Inside(locs: seq<Loc>, size: nat) {
    forall i :: 0 <= i < |locs| ==> End(locs[i]) <= size
  }

  /** In offset order and disjoint. */
  ghost predicate Sorted(locs: seq<Loc>) {
    forall i, j :: 0 <= i < j < |locs| ==> End(locs[i]) <= locs[j].off
  }

  function Piece<T>(pack: seq<T>, l: Loc): seq<T>
    requires End(l) <= |pack|
  {
    pack[l.off..l.off + l.len]
  }

  /** The bytes the entries ask for. */
  function Wanted<T>(pack: seq<T>, locs: seq<Loc>): seq<T>
    requires Inside(locs, |pack|)
  {
    if locs == [] then [] else Wanted(pack, locs[..|locs| - 1]) + Piece(pack, locs[|locs| - 1])
  }

  /** A read stays inside the window and its entries inside the read. */
  ghost predicate ReadOk(r: Read, size: nat) {
    && 0 < r.span.len <= WINDOW && End(r.span) <= size
    && forall i :: 0 <= i < |r.ents| ==> r.span.off <= r.ents[i].off && End(r.ents[i]) <= End(r.span)
  }

  ghost predicate ReadsOk(plan: seq<Read>, size: nat) {
    forall i :: 0 <= i < |plan| ==> ReadOk(plan[i], size)
  }

  /** What one read serves: its entries, cut out of the bytes read. */
  function Serve<T>(pack: seq<T>, r: Read): seq<T>
    requires ReadOk(r, |pack|)
  {
    Cut(Piece(pack, r.span), r.span.off, r.ents)
  }

  function Cut<T>(buf: seq<T>, off: nat, ents: seq<Loc>): seq<T>
    requires forall i :: 0 <= i < |ents| ==> off <= ents[i].off && End(ents[i]) <= off + |buf|
  {
    if ents == [] then [] else
      var l := ents[|ents| - 1];
      assert off <= l.off && End(l) <= off + |buf|;
      Cut(buf, off, ents[..|ents| - 1]) + Piece(buf, Loc(l.off - off, l.len))
  }

  function ServeAll<T>(pack: seq<T>, plan: seq<Read>): seq<T>
    requires ReadsOk(plan, |pack|)
  {
    if plan == [] then [] else ServeAll(pack, plan[..|plan| - 1]) + Serve(pack, plan[|plan| - 1])
  }

  lemma PieceOfPiece<T>(pack: seq<T>, a: Loc, l: Loc)
    requires End(a) <= |pack| && a.off <= l.off && End(l) <= End(a)
    ensures Piece(Piece(pack, a), Loc(l.off - a.off, l.len)) == Piece(pack, l)
  {
    var p, q, k := Piece(Piece(pack, a), Loc(l.off - a.off, l.len)), Piece(pack, l), l.off - a.off;
    forall i | 0 <= i < l.len ensures p[i] == q[i] {
      assert p[i] == Piece(pack, a)[k + i] == pack[a.off + (k + i)];
    }
  }

  /** Cutting from a read is cutting from the pack. */
  lemma {:induction false} CutIsWanted<T>(pack: seq<T>, a: Loc, ents: seq<Loc>)
    requires End(a) <= |pack| && forall i :: 0 <= i < |ents| ==> a.off <= ents[i].off && End(ents[i]) <= End(a)
    ensures Cut(Piece(pack, a), a.off, ents) == Wanted(pack, ents)
  {
    if ents != [] {
      CutIsWanted(pack, a, ents[..|ents| - 1]);
      PieceOfPiece(pack, a, ents[|ents| - 1]);
    }
  }

  lemma ServeIsWanted<T>(pack: seq<T>, r: Read)
    requires ReadOk(r, |pack|)
    ensures Serve(pack, r) == Wanted(pack, r.ents)
  {
    CutIsWanted(pack, r.span, r.ents);
  }

  lemma WantedSnoc<T>(pack: seq<T>, locs: seq<Loc>, l: Loc)
    requires Inside(locs, |pack|) && End(l) <= |pack|
    ensures Wanted(pack, locs + [l]) == Wanted(pack, locs) + Piece(pack, l)
  {
    assert (locs + [l])[..|locs|] == locs;
  }

  lemma ServeSnoc<T>(pack: seq<T>, plan: seq<Read>, r: Read)
    requires ReadsOk(plan, |pack|) && ReadOk(r, |pack|)
    ensures ServeAll(pack, plan + [r]) == ServeAll(pack, plan) + Wanted(pack, r.ents)
  {
    assert (plan + [r])[..|plan|] == plan;
    ServeIsWanted(pack, r);
  }

  lemma Join<T>(s: seq<T>, a: nat, b: nat, c: nat)
    requires a <= b <= c <= |s|
    ensures s[a..b] + s[b..c] == s[a..c]
  {
  }

  lemma Assoc<T>(a: seq<T>, b: seq<T>, c: seq<T>)
    ensures (a + b) + c == a + (b + c)
  {
  }

  /** Reads do not overlap and go forward. */
  ghost predicate Forward(plan: seq<Read>) {
    var n := |plan|;
    n > 1 ==> Forward(plan[..n - 1]) && End(plan[n - 2].span) <= plan[n - 1].span.off
  }

  /** Two reads that a gap or the window keeps apart. */
  predicate Far(a: Loc, b: Loc, gap: nat) {
    End(a) + gap <= b.off || a.off + WINDOW <= End(b)
  }

  /** No two neighbouring reads could have been one. */
  ghost predicate Spaced(plan: seq<Read>, gap: nat) {
    var n := |plan|;
    n > 1 ==> Spaced(plan[..n - 1], gap) && Far(plan[n - 2].span, plan[n - 1].span, gap)
  }

  /** A read goes from its first stretch to its last, and skips less than the gap between two. */
  ghost predicate TightRead(r: Read, gap: nat) {
    && r.ents != [] && r.span.off == r.ents[0].off && End(r.span) == End(r.ents[|r.ents| - 1])
    && forall j :: 0 <= j < |r.ents| - 1 ==> End(r.ents[j]) <= r.ents[j + 1].off < End(r.ents[j]) + gap
  }

  ghost predicate Tight(plan: seq<Read>, gap: nat) {
    forall i :: 0 <= i < |plan| ==> TightRead(plan[i], gap)
  }

  lemma ForwardSnoc(plan: seq<Read>, r: Read)
    requires Forward(plan) && (plan != [] ==> End(Last(plan)) <= r.span.off)
    ensures Forward(plan + [r])
  {
    assert (plan + [r])[..|plan|] == plan;
  }

  lemma SpacedSnoc(plan: seq<Read>, r: Read, gap: nat)
    requires Spaced(plan, gap) && (plan != [] ==> Far(Last(plan), r.span, gap))
    ensures Spaced(plan + [r], gap)
  {
    assert (plan + [r])[..|plan|] == plan;
  }

  ghost predicate Planned<T>(pack: seq<T>, locs: seq<Loc>, plan: seq<Read>) {
    Inside(locs, |pack|) && ReadsOk(plan, |pack|) && Forward(plan) && ServeAll(pack, plan) == Wanted(pack, locs)
  }

  function Last(plan: seq<Read>): Loc
    requires plan != []
  {
    plan[|plan| - 1].span
  }

  /** The plan, its last read grown to the end of an entry after it. */
  function Grown(plan: seq<Read>, l: Loc): seq<Read>
    requires plan != [] && Last(plan).off <= End(l)
  {
    plan[..|plan| - 1] + [Read(Loc(Last(plan).off, End(l) - Last(plan).off), plan[|plan| - 1].ents + [l])]
  }

  lemma GrownOk(plan: seq<Read>, size: nat, l: Loc)
    requires plan != [] && ReadsOk(plan, size) && Forward(plan) && End(l) <= size
    requires End(Last(plan)) <= l.off && End(l) - Last(plan).off <= WINDOW
    ensures ReadsOk(Grown(plan, l), size) && Forward(Grown(plan, l))
  {
    var init, r' := plan[..|plan| - 1], Grown(plan, l)[|plan| - 1];
    assert ReadOk(plan[|plan| - 1], size) && ReadOk(r', size);
    ForwardSnoc(init, r');
  }

  lemma GrownServes<T>(pack: seq<T>, plan: seq<Read>, l: Loc)
    requires plan != [] && ReadsOk(plan, |pack|) && End(l) <= |pack| && Last(plan).off <= End(l)
    requires ReadsOk(Grown(plan, l), |pack|)
    ensures ServeAll(pack, Grown(plan, l)) == ServeAll(pack, plan) + Piece(pack, l)
  {
    var init, r, r' := plan[..|plan| - 1], plan[|plan| - 1], Grown(plan, l)[|plan| - 1];
    assert ReadOk(r, |pack|) && ReadOk(r', |pack|);
    assert init + [r] == plan;
    ServeSnoc(pack, init, r);
    ServeSnoc(pack, init, r');
    WantedSnoc(pack, r.ents, l);
    Assoc(ServeAll(pack, init), Wanted(pack, r.ents), Piece(pack, l));
  }

  lemma GrowLast<T>(pack: seq<T>, locs: seq<Loc>, plan: seq<Read>, l: Loc)
    requires Planned(pack, locs, plan) && plan != [] && End(l) <= |pack|
    requires End(Last(plan)) <= l.off && End(l) - Last(plan).off <= WINDOW
    ensures Planned(pack, locs + [l], Grown(plan, l))
    ensures Last(Grown(plan, l)) == Loc(Last(plan).off, End(l) - Last(plan).off)
  {
    GrownOk(plan, |pack|, l);
    GrownServes(pack, plan, l);
    WantedSnoc(pack, locs, l);
  }

  lemma WantedOne<T>(pack: seq<T>, l: Loc)
    requires End(l) <= |pack|
    ensures Wanted(pack, [l]) == Piece(pack, l)
  {
    assert [l][..0] == [];
  }

  /** A new read for a piece after the last one. */
  lemma AddRead<T>(pack: seq<T>, locs: seq<Loc>, plan: seq<Read>, l: Loc)
    requires Planned(pack, locs, plan) && End(l) <= |pack| && 0 < l.len <= WINDOW
    requires plan != [] ==> End(Last(plan)) <= l.off
    ensures Planned(pack, locs + [l], plan + [Read(l, [l])])
  {
    var r := Read(l, [l]);
    assert ReadOk(r, |pack|);
    ServeSnoc(pack, plan, r);
    WantedOne(pack, l);
    WantedSnoc(pack, locs, l);
    ForwardSnoc(plan, r);
  }

  lemma PieceJoin<T>(pack: seq<T>, off: nat, a: nat, n: nat)
    requires off + a + n <= |pack|
    ensures Piece(pack, Loc(off, a)) + Piece(pack, Loc(off + a, n)) == Piece(pack, Loc(off, a + n))
  {
    Join(pack, off, off + a, off + a + n);
  }

  lemma NoPiece<T>(pack: seq<T>, locs: seq<Loc>, plan: seq<Read>, off: nat)
    requires Planned(pack, locs, plan) && off <= |pack|
    ensures Planned(pack, locs + [Loc(off, 0)], plan)
  {
    WantedSnoc(pack, locs, Loc(off, 0));
    assert Piece(pack, Loc(off, 0)) == [];
  }

  /** Reading the next piece of an entry. */
  lemma NextPiece<T>(pack: seq<T>, locs: seq<Loc>, plan: seq<Read>, off: nat, a: nat, n: nat)
    requires Planned(pack, locs + [Loc(off, a)], plan) && Inside(locs, |pack|) && off + a + n <= |pack|
    requires 0 < n <= WINDOW && (plan != [] ==> End(Last(plan)) <= off + a)
    ensures Planned(pack, locs + [Loc(off, a + n)], plan + [Read(Loc(off + a, n), [Loc(off + a, n)])])
  {
    var done, l := locs + [Loc(off, a)], Loc(off + a, n);
    AddRead(pack, done, plan, l);
    WantedSnoc(pack, done, l);
    WantedSnoc(pack, locs, Loc(off, a));
    WantedSnoc(pack, locs, Loc(off, a + n));
    PieceJoin(pack, off, a, n);
    Assoc(Wanted(pack, locs), Piece(pack, Loc(off, a)), Piece(pack, l));
  }

  // ---- the planner ------------------------------------------------------------------

  /** The last read cannot take the entry in. */
  predicate Apart(plan: seq<Read>, l: Loc, gap: nat) {
    plan != [] ==> End(Last(plan)) + gap <= l.off || End(l) > Last(plan).off + WINDOW
  }

  /** One more read, for the next n bytes of the entry `done` is the beginning of. */
  method AddFragment<T>(plan: seq<Read>, done: Loc, n: nat, ghost gap: nat, ghost pack: seq<T>, ghost locs: seq<Loc>)
    returns (plan': seq<Read>, done': Loc)
    requires Planned(pack, locs + [done], plan) && Inside(locs, |pack|) && End(done) + n <= |pack|
    requires 0 < n <= WINDOW && (plan != [] ==> End(Last(plan)) <= End(done))
    requires Spaced(plan, gap) && Tight(plan, gap) && (plan != [] ==> Far(Last(plan), Loc(End(done), n), gap))
    ensures Planned(pack, locs + [done'], plan') && done'.off == done.off && done'.len == done.len + n
    ensures plan' != [] && Last(plan') == Loc(End(done), n) && Spaced(plan', gap) && Tight(plan', gap)
  {
    hide Planned, Spaced, Inside;
    var l := Loc(End(done), n);
    done' := Loc(done.off, done.len + n);
    NextPiece(pack, locs, plan, done.off, done.len, n);
    SpacedSnoc(plan, Read(l, [l]), gap);
    plan' := plan + [Read(l, [l])];
  }

  /** An entry too far or too big for the last read: a read of its own, or one per window. */
  method Fragments<T>(plan: seq<Read>, l: Loc, ghost gap: nat, ghost pack: seq<T>, ghost locs: seq<Loc>)
    returns (plan': seq<Read>)
    requires Planned(pack, locs, plan) && End(l) <= |pack| && (plan != [] ==> End(Last(plan)) <= l.off)
    requires Spaced(plan, gap) && Tight(plan, gap) && Apart(plan, l, gap)
    ensures Planned(pack, locs + [l], plan') && (plan' != [] ==> End(Last(plan')) <= End(l))
    ensures Spaced(plan', gap) && Tight(plan', gap)
  {
    hide Planned, Spaced, Tight;
    plan' := plan;
    var done := Loc(l.off, 0);
    NoPiece(pack, locs, plan, l.off);
    InsideOf(pack, locs, plan);
    while done.len < l.len
      invariant Planned(pack, locs + [done], plan') && Spaced(plan', gap) && Tight(plan', gap)
      invariant done.off == l.off && done.len <= l.len && (plan' != [] ==> End(Last(plan')) <= End(done))
      invariant if done.len == 0 then plan' == plan
                else plan' != [] && (done.len < l.len ==> Last(plan').off + WINDOW <= End(done))
      decreases l.len - done.len
    {
      var rest := l.len - done.len;
      plan', done := AddFragment(plan', done, if rest < WINDOW then rest else WINDOW, gap, pack, locs);
    }
    assert done == l;
  }

  lemma InsideOf<T>(pack: seq<T>, locs: seq<Loc>, plan: seq<Read>)
    requires Planned(pack, locs, plan)
    ensures Inside(locs, |pack|)
  {
  }

  lemma GrownSpaced(plan: seq<Read>, l: Loc, gap: nat)
    requires Spaced(plan, gap) && plan != [] && End(Last(plan)) <= l.off
    ensures Spaced(Grown(plan, l), gap)
  {
    SpacedSnoc(plan[..|plan| - 1], Grown(plan, l)[|plan| - 1], gap);
  }

  lemma GrownTight(plan: seq<Read>, l: Loc, gap: nat)
    requires Tight(plan, gap) && plan != [] && End(Last(plan)) <= l.off < End(Last(plan)) + gap
    ensures Tight(Grown(plan, l), gap)
  {
    var r, r' := plan[|plan| - 1], Grown(plan, l)[|plan| - 1];
    assert TightRead(r, gap);
    assert TightRead(r', gap);
  }

  /** The planned reads serve exactly the entries' bytes, each within the window. They skip less
      than the gap inside a read, and no two neighbours could have been one. */
  method Coalesce<T>(locs: seq<Loc>, gap: nat, ghost pack: seq<T>) returns (plan: seq<Read>)
    requires Sorted(locs) && Inside(locs, |pack|)
    ensures Planned(pack, locs, plan) && Spaced(plan, gap) && Tight(plan, gap)
  {
    hide Planned, Spaced, Tight;
    plan := [];
    NoReads(pack, gap);
    for i := 0 to |locs|
      invariant Planned(pack, locs[..i], plan) && Spaced(plan, gap) && Tight(plan, gap)
      invariant plan != [] ==> i > 0 && End(Last(plan)) <= End(locs[i - 1])
    {
      var l := locs[i];
      assert locs[..i + 1] == locs[..i] + [l];
      if plan != [] && l.off - End(Last(plan)) < gap && End(l) - Last(plan).off <= WINDOW {
        GrowLast(pack, locs[..i], plan, l);
        GrownSpaced(plan, l, gap);
        GrownTight(plan, l, gap);
        plan := Grown(plan, l);
      } else {
        plan := Fragments(plan, l, gap, pack, locs[..i]);
      }
    }
    assert locs[..|locs|] == locs;
  }

  lemma NoReads<T>(pack: seq<T>, gap: nat)
    ensures Planned(pack, [], []) && Spaced([], gap) && Tight([], gap)
  {
  }

  // ---- how many reads ---------------------------------------------------------------

  function CeilDiv(a: nat, b: nat): nat
    requires b > 0
  {
    (a + b - 1) / b
  }

  /** With the wide gap, two reads on means a window on. */
  lemma {:induction false} TwoReadsAWindow(plan: seq<Read>, i: nat)
    requires Forward(plan) && Spaced(plan, WINDOW) && i + 2 < |plan|
    ensures plan[i].span.off + WINDOW <= plan[i + 2].span.off
    decreases |plan|
  {
    var n := |plan|;
    if i + 3 == n {
      assert Spaced(plan[..n - 1], WINDOW);
      assert plan[..n - 1][n - 2] == plan[n - 2] && plan[..n - 1][n - 3] == plan[n - 3];
    } else {
      TwoReadsAWindow(plan[..n - 1], i);
    }
  }

  lemma {:induction false} EvenReads(plan: seq<Read>, k: nat)
    requires Forward(plan) && Spaced(plan, WINDOW) && 2 * k < |plan|
    ensures k * WINDOW <= plan[2 * k].span.off
  {
    if k > 0 {
      EvenReads(plan, k - 1);
      TwoReadsAWindow(plan, 2 * k - 2);
    }
  }

  /** .. so the reads are at most two per window of the pack. */
  lemma ReadBound(plan: seq<Read>, size: nat)
    requires ReadsOk(plan, size) && Forward(plan) && Spaced(plan, WINDOW)
    ensures |plan| <= 2 * CeilDiv(size, WINDOW)
  {
    if plan != [] {
      var k := (|plan| - 1) / 2;
      EvenReads(plan, k);
      assert ReadOk(plan[2 * k], size);
      assert k * WINDOW < size;
    }
  }

  /** One pack's plan: refused when its index no longer has every marked entry; otherwise it
      announces as many entries as it serves, in at most two reads per window. It skips less
      than 256 KiB at a time, unless that takes more reads than the pack has windows. */
  method PlanPack<T>(locs: seq<Loc>, bitmap: seq<bv8>, size: nat, ghost pack: seq<T>)
    returns (plan: seq<Read>, announced: nat, ok: bool, ghost narrow: seq<Read>)
    requires Sorted(locs) && Inside(locs, |pack|) && size == |pack|
    ensures announced == |Bitmaps.Bits(bitmap)| && (ok <==> announced == |locs|)
    ensures ok ==> Planned(pack, locs, plan) && |plan| <= 2 * CeilDiv(size, WINDOW)
    ensures ok ==> Planned(pack, locs, narrow) && Spaced(narrow, 262_144) && Tight(narrow, 262_144)
    ensures ok ==> if |narrow| <= CeilDiv(size, 8_388_608) then plan == narrow
                   else Spaced(plan, 8_388_608) && Tight(plan, 8_388_608)
  {
    hide Spaced, Tight;
    announced := Bitmaps.Popcount(bitmap);
    ok := announced == |locs|;
    plan, narrow := [], [];
    if ok {
      plan := Coalesce(locs, GAP, pack);
      narrow := plan;
      if |plan| > CeilDiv(size, WINDOW) {
        plan := Coalesce(locs, WINDOW, pack);
        ReadBound(plan, size);
      }
    }
  }
}
