/** The bitmaps a compaction starts with: the first occurrence of each object over the
    cohort, in pack order, is the one that is copied. */
module Dedup {
  import opened Repository
  import opened Bitmaps
  import Steps
  import Traces

  datatype IndexRow = IndexRow(idx: nat, sha: Sha)

  /** One cohort pack and its index rows, by idx. */
  datatype PackRows = PackRows(id: PackId, count: nat, rows: seq<IndexRow>)

  /** The rows are the pack's index: one per object, one per entry. */
  ghost predicate Lists(db: Store, t: PackRows) {
    && t.id in db.rows
    && (forall i :: 0 <= i < |t.rows| ==>
      t.rows[i].sha in db.rows[t.id] && db.rows[t.id][t.rows[i].sha] == t.rows[i].idx)
    && (forall x :: x in db.rows[t.id] ==> exists i :: 0 <= i < |t.rows| && t.rows[i].sha == x)
    && (forall i, j :: 0 <= i < j < |t.rows| ==> t.rows[i].idx != t.rows[j].idx)
  }

  ghost predicate Listed(db: Store, ts: seq<PackRows>) {
    && (forall i :: 0 <= i < |ts| ==> Lists(db, ts[i]))
    && (forall i, j :: 0 <= i < j < |ts| ==> ts[i].id != ts[j].id)
  }

  function Decoded(out: map<PackId, seq<Byte>>): map<PackId, Marks> {
    map p | p in out :: Marks(Bits(out[p]), None)
  }

  function Max(a: nat, b: nat): nat {
    if a < b then b else a
  }

  method Widest(rows: seq<IndexRow>) returns (n: nat)
    ensures forall i :: 0 <= i < |rows| ==> rows[i].idx < n
  {
    n := 0;
    for i := 0 to |rows|
      invariant forall j :: 0 <= j < i ==> rows[j].idx < n
    {
      n := Max(n, rows[i].idx + 1);
    }
  }

  lemma {:induction false} NoBits(bm: seq<Byte>)
    requires forall i :: 0 <= i < |bm| ==> bm[i] == 0
    ensures Bits(bm) == {}
  {
    forall i: nat ensures !Has(bm, i) {
      if i / 8 < |bm| { assert bm[i / 8] == 0; }
    }
  }

  /** The shas of the first n rows. */
  function Shas(rows: seq<IndexRow>, n: nat): set<Sha>
    requires n <= |rows|
  {
    set i | 0 <= i < n :: rows[i].sha
  }

  /** Of the first n rows exactly the new ones are set, of the others none. */
  ghost predicate SetUpTo(rows: seq<IndexRow>, n: nat, seen: set<Sha>, bits: set<nat>) {
    && n <= |rows|
    && (forall i :: 0 <= i < n ==> (rows[i].idx in bits <==> rows[i].sha !in seen))
    && (forall i :: n <= i < |rows| ==> rows[i].idx !in bits)
  }

  lemma SetNext(rows: seq<IndexRow>, k: nat, seen: set<Sha>, bits: set<nat>)
    requires k < |rows| && SetUpTo(rows, k, seen, bits)
    requires forall i, j :: 0 <= i < j < |rows| ==> rows[i].idx != rows[j].idx && rows[i].sha != rows[j].sha
    ensures SetUpTo(rows, k + 1, seen, if rows[k].sha in seen then bits else bits + {rows[k].idx})
    ensures Shas(rows, k + 1) == Shas(rows, k) + {rows[k].sha} && rows[k].sha !in Shas(rows, k)
  {
  }

  /** One pack: the entries of the objects not seen before. */
  method FirstSeen(t: PackRows, seen: set<Sha>) returns (bm: seq<Byte>, seen': set<Sha>, err: bool)
    requires forall i, j :: 0 <= i < j < |t.rows| ==> t.rows[i].idx != t.rows[j].idx && t.rows[i].sha != t.rows[j].sha
    ensures !err && seen' == seen + Shas(t.rows, |t.rows|)
    ensures forall i :: 0 <= i < |t.rows| ==> (t.rows[i].idx in Bits(bm) <==> t.rows[i].sha !in seen)
  {
    var widest := Widest(t.rows);
    var size := (Max(t.count, widest) + 7) / 8;
    var a := new Byte[size](_ => 0);
    err, seen' := false, seen;
    NoBits(a[..]);
    for k := 0 to |t.rows|
      invariant seen' == seen + Shas(t.rows, k) && !err && SetUpTo(t.rows, k, seen, Bits(a[..]))
    {
      var r := t.rows[k];
      SetNext(t.rows, k, seen, Bits(a[..]));
      if r.sha !in seen' {
        assert r.idx < widest;
        var ok := SetBit(a, r.idx);
        err := !ok;
        seen' := seen' + {r.sha};
      }
    }
    bm := a[..];
  }

  ghost predicate Marks1(db: Store, out: map<PackId, seq<Byte>>, p: PackId, x: Sha) {
    p in out && Copy(db, x, p) && db.rows[p][x] in Bits(out[p])
  }

  /** The packs done so far. */
  ghost predicate Covers(ts: seq<PackRows>, n: nat, out: map<PackId, seq<Byte>>)
    requires n <= |ts|
  {
    forall p :: p in out <==> exists i :: 0 <= i < n && ts[i].id == p
  }

  /** Every object of theirs is marked in exactly one of them. */
  ghost predicate MarkedOnce(db: Store, out: map<PackId, seq<Byte>>, seen: set<Sha>) {
    && (forall p, x :: p in out && Copy(db, x, p) ==> x in seen)
    && (forall x :: x in seen ==> exists p :: Marks1(db, out, p, x))
    && (forall p, q, x :: Marks1(db, out, p, x) && Marks1(db, out, q, x) ==> p == q)
  }

  lemma AddPack(db: Store, out: map<PackId, seq<Byte>>, seen: set<Sha>, id: PackId, bm: seq<Byte>, seen': set<Sha>)
    requires MarkedOnce(db, out, seen) && id !in out && seen <= seen'
    requires forall x :: Copy(db, x, id) ==> x in seen' && (db.rows[id][x] in Bits(bm) <==> x !in seen)
    requires forall x :: x in seen' && x !in seen ==> Copy(db, x, id)
    ensures MarkedOnce(db, out[id := bm], seen')
  {
    var out' := out[id := bm];
    assert forall p, x :: p != id ==> (Marks1(db, out', p, x) <==> Marks1(db, out, p, x));
    forall x | x in seen' ensures exists p :: Marks1(db, out', p, x) {
      if x in seen {
        var p :| Marks1(db, out, p, x);
        assert Marks1(db, out', p, x);
      } else {
        assert Marks1(db, out', id, x);
      }
    }
    forall p, q, x | Marks1(db, out', p, x) && Marks1(db, out', q, x) ensures p == q {
      if p != id && q != id { assert Marks1(db, out, p, x) && Marks1(db, out, q, x); }
    }
  }

  lemma PackMarks(db: Store, t: PackRows, seen: set<Sha>, bm: seq<Byte>, seen': set<Sha>)
    requires Lists(db, t) && seen' == seen + Shas(t.rows, |t.rows|)
    requires forall i :: 0 <= i < |t.rows| ==> (t.rows[i].idx in Bits(bm) <==> t.rows[i].sha !in seen)
    ensures forall x :: Copy(db, x, t.id) ==> x in seen' && (db.rows[t.id][x] in Bits(bm) <==> x !in seen)
    ensures forall x :: x in seen' && x !in seen ==> Copy(db, x, t.id)
  {
    forall x | Copy(db, x, t.id) ensures x in seen' && (db.rows[t.id][x] in Bits(bm) <==> x !in seen) {
      var i :| 0 <= i < |t.rows| && t.rows[i].sha == x;
      assert t.rows[i].sha in Shas(t.rows, |t.rows|);
    }
  }

  /** The `marked` table after the first k inserts. */
  function Stored(out: seq<(PackId, seq<Byte>)>, k: nat): map<PackId, seq<Byte>>
    requires k <= |out|
  {
    if k == 0 then map[] else Stored(out, k - 1)[out[k - 1].0 := out[k - 1].1]
  }

  lemma {:induction false} StoredPrefix(out: seq<(PackId, seq<Byte>)>, more: seq<(PackId, seq<Byte>)>, k: nat)
    requires k <= |out| && out <= more
    ensures Stored(more, k) == Stored(out, k)
  {
    if k > 0 { StoredPrefix(out, more, k - 1); }
  }

  /** After every insert so far. */
  ghost predicate EachDeduped(db: Store, out: seq<(PackId, seq<Byte>)>) {
    forall k :: 0 <= k <= |out| ==> Steps.DedupMarks(db, Decoded(Stored(out, k)))
  }

  lemma EachNext(db: Store, out: seq<(PackId, seq<Byte>)>, id: PackId, bm: seq<Byte>)
    requires EachDeduped(db, out) && Steps.DedupMarks(db, Decoded(Stored(out, |out|)[id := bm]))
    ensures EachDeduped(db, out + [(id, bm)])
    ensures Stored(out + [(id, bm)], |out| + 1) == Stored(out, |out|)[id := bm]
  {
    hide Steps.DedupMarks, Decoded;
    var out' := out + [(id, bm)];
    forall k | 0 <= k <= |out| ensures Stored(out', k) == Stored(out, k) { StoredPrefix(out, out', k); }
    assert Stored(out', |out| + 1) == Stored(out', |out|)[id := bm];
  }

  /** Every object of the cohort is marked in exactly one of its copies, so the build emits
      it exactly once; the same holds of what is stored after each insert. No index is ever
      past its bitmap. */
  method DedupBitmaps(ts: seq<PackRows>, ghost db: Store) returns (out: seq<(PackId, seq<Byte>)>, err: bool)
    requires Listed(db, ts)
    ensures !err && EachDeduped(db, out)
    ensures |out| == |ts| && forall i :: 0 <= i < |ts| ==> out[i].0 == ts[i].id
  {
    hide Bits, Steps.DedupMarks;
    var seen: set<Sha> := {};
    out, err := [], false;
    Translate(db, map[], seen);
    for n := 0 to |ts|
      invariant |out| == n && (forall i :: 0 <= i < n ==> out[i].0 == ts[i].id) && !err
      invariant Covers(ts, n, Stored(out, n)) && MarkedOnce(db, Stored(out, n), seen) && EachDeduped(db, out)
    {
      var t, bm, seen' := ts[n], [], seen;
      assert Lists(db, t);
      bm, seen', err := FirstSeen(t, seen);
      PackMarks(db, t, seen, bm, seen');
      AddPack(db, Stored(out, n), seen, t.id, bm, seen');
      CoverNext(ts, n, Stored(out, n), bm);
      Translate(db, Stored(out, n)[t.id := bm], seen');
      EachNext(db, out, t.id, bm);
      out, seen := out + [(t.id, bm)], seen';
    }
  }

  /** `gc_compact_stake_chain`: every insert is a step of the model, so an error between two
      of them leaves a chain that loses nothing. */
  method StakeChain(g: Content, ts: seq<PackRows>, s: State) returns (t: State)
    requires s.span.Idle? && s.chain.None? && s.marked == map[] && s.frontier == map[] && s.seen == {}
    requires s.pending == map[]
    requires Listed(s.db, ts) && forall i :: 0 <= i < |ts| ==> LivePack(s.db, ts[i].id)
    ensures Traces.Leads(g, s, t) && t.span.Staking? && t.db == s.db
    ensures (forall i :: 0 <= i < |ts| ==> ts[i].id in t.marked) && Steps.DedupMarks(t.db, t.marked)
    ensures forall p :: p in t.marked ==> exists i :: 0 <= i < |ts| && ts[i].id == p
  {
    hide Traces.Leads, Listed, Bits, Steps.DedupMarks, Stored, Decoded;
    StoredNone();
    var out, err := DedupBitmaps(ts, s.db);
    t := s.(chain := Some(Chain(s.nextChain, Compact, Build, s.rv, None, None, None, {}, {}, {}, false, false)),
            nextChain := s.nextChain + 1, plan := None, span := Staking);
    InitLeads(g, s, t);
    for k := 0 to |ts|
      invariant Traces.Leads(g, s, t) && t.span.Staking? && t.db == s.db && t.marked == Decoded(Stored(out, k))
      invariant forall i :: 0 <= i < k ==> ts[i].id in t.marked
      invariant forall p :: p in t.marked ==> exists i :: 0 <= i < k && ts[i].id == p
    {
      ghost var before := t;
      t := t.(marked := t.marked[ts[k].id := Marks(Bits(out[k].1), None)]);
      NewId(s.db, ts, before.marked, k);
      InsertLeads(g, s, before, out, k, t);
    }
  }

  lemma InsertLeads(g: Content, s: State, t: State, out: seq<(PackId, seq<Byte>)>, k: nat, u: State)
    requires Traces.Leads(g, s, t) && t.span.Staking? && k < |out| && EachDeduped(t.db, out)
    requires t.marked == Decoded(Stored(out, k)) && out[k].0 !in t.marked && LivePack(t.db, out[k].0)
    requires u == t.(marked := t.marked[out[k].0 := Marks(Bits(out[k].1), None)])
    ensures Traces.Leads(g, s, u) && u.marked == Decoded(Stored(out, k + 1))
  {
    hide Traces.Leads, Bits, Steps.DedupMarks;
    assert u.marked == Decoded(Stored(out, k + 1));
    assert Steps.DedupMarks(t.db, Decoded(Stored(out, k + 1)));
    AddLeads(g, s, t, out[k].0, Bits(out[k].1), u);
  }

  lemma NewId(db: Store, ts: seq<PackRows>, m: Cohort, k: nat)
    requires Listed(db, ts) && k < |ts| && forall p :: p in m ==> exists i :: 0 <= i < k && ts[i].id == p
    ensures ts[k].id !in m
  {
    hide Lists;
  }

  lemma StoredNone()
    ensures forall out :: Stored(out, 0) == map[]
    ensures Decoded(map[]) == map[]
  {
  }

  lemma InitLeads(g: Content, s: State, t: State)
    requires Steps.InitCompactStep(s, t)
    ensures Traces.Leads(g, s, t)
  {
    hide Traces.Leads, Steps.InitCompactStep;
    Traces.LeadsSelf(g, s);
    Traces.LeadsStep(g, s, s, Steps.InitCompact, t);
  }

  lemma AddLeads(g: Content, s: State, t: State, p: PackId, bits: set<nat>, u: State)
    requires Traces.Leads(g, s, t) && Steps.CompactAddStep(t, p, bits, u)
    ensures Traces.Leads(g, s, u)
  {
    hide Traces.Leads, Steps.CompactAddStep;
    Traces.LeadsStep(g, s, t, Steps.CompactAdd(p, bits), u);
  }

  lemma CoverNext(ts: seq<PackRows>, n: nat, out: map<PackId, seq<Byte>>, bm: seq<Byte>)
    requires n < |ts| && Covers(ts, n, out)
    ensures Covers(ts, n + 1, out[ts[n].id := bm])
  {
    var out' := out[ts[n].id := bm];
    forall p | p in out' ensures exists i :: 0 <= i < n + 1 && ts[i].id == p {
      if p == ts[n].id { assert ts[n].id == p; }
    }
  }

  lemma Translate(db: Store, out: map<PackId, seq<Byte>>, seen: set<Sha>)
    requires MarkedOnce(db, out, seen)
    ensures Steps.DedupMarks(db, Decoded(out))
  {
    var marks := Decoded(out);
    forall p, x | p in marks && Copy(db, x, p)
      ensures exists q :: q in marks && Copy(db, x, q) && db.rows[q][x] in marks[q].bitmap
    {
      assert x in seen;
      var q :| Marks1(db, out, q, x);
      assert q in marks && Copy(db, x, q) && db.rows[q][x] in marks[q].bitmap;
    }
    forall p, q, x | p in marks && q in marks && Copy(db, x, p) && Copy(db, x, q)
      && db.rows[p][x] in marks[p].bitmap && db.rows[q][x] in marks[q].bitmap
      ensures p == q
    {
      assert Marks1(db, out, p, x) && Marks1(db, out, q, x);
    }
  }
}
