/** The mark bitmaps as bytes, one bit per pack entry: each byte-level loop decides the
    set-level question the protocol asks. */
module Bitmaps {
  import opened Repository
  import Steps

  /** `1 << k`. */
  function Mask(k: nat): Byte
    requires k < 8
  {
    if k == 0 then 1 else if k == 1 then 2 else if k == 2 then 4 else if k == 3 then 8
    else if k == 4 then 16 else if k == 5 then 32 else if k == 6 then 64 else 128
  }

  predicate Bit(b: Byte, k: nat)
    requires k < 8
  {
    b & Mask(k) != 0
  }

  predicate Has(bm: seq<Byte>, i: nat) {
    i / 8 < |bm| && Bit(bm[i / 8], i % 8)
  }

  /** The entries a bitmap marks. */
  function Bits(bm: seq<Byte>): set<nat> {
    set i: nat | i < 8 * |bm| && Has(bm, i)
  }

  lemma InBits(bm: seq<Byte>, i: nat)
    ensures i in Bits(bm) <==> Has(bm, i)
  {
  }

  // ---- one byte ---------------------------------------------------------------------

  lemma OrBit(b: Byte, k: nat, j: nat)
    requires k < 8 && j < 8
    ensures Bit(b | Mask(k), j) <==> j == k || Bit(b, j)
  {
  }

  lemma MissingBits(a: Byte, b: Byte)
    ensures a & !b == 0 <==> forall k: nat :: k < 8 && Bit(a, k) ==> Bit(b, k)
  {
    if a & !b != 0 {
      assert (a & !b) & 1 != 0 || (a & !b) & 2 != 0 || (a & !b) & 4 != 0 || (a & !b) & 8 != 0
        || (a & !b) & 16 != 0 || (a & !b) & 32 != 0 || (a & !b) & 64 != 0 || (a & !b) & 128 != 0;
      assert !(Bit(a, 0) ==> Bit(b, 0)) || !(Bit(a, 1) ==> Bit(b, 1)) || !(Bit(a, 2) ==> Bit(b, 2))
        || !(Bit(a, 3) ==> Bit(b, 3)) || !(Bit(a, 4) ==> Bit(b, 4)) || !(Bit(a, 5) ==> Bit(b, 5))
        || !(Bit(a, 6) ==> Bit(b, 6)) || !(Bit(a, 7) ==> Bit(b, 7));
    }
  }

  /** `count_ones` of the low `keep` bits. */
  function Ones(b: Byte, keep: nat): nat
    requires keep <= 8
  {
    if keep == 0 then 0 else Ones(b, keep - 1) + if Bit(b, keep - 1) then 1 else 0
  }

  /** `(1 << keep) - 1`. */
  function LowMask(keep: nat): Byte
    requires keep <= 8
  {
    if keep == 0 then 0 else LowMask(keep - 1) | Mask(keep - 1)
  }

  lemma {:induction false} LowMaskBit(keep: nat, j: nat)
    requires keep <= 8 && j < 8
    ensures Bit(LowMask(keep), j) <==> j < keep
  {
    if keep > 0 {
      LowMaskBit(keep - 1, j);
      OrBit(LowMask(keep - 1), keep - 1, j);
    }
  }

  lemma AndBit(a: Byte, b: Byte, j: nat)
    requires j < 8
    ensures Bit(a & b, j) <==> Bit(a, j) && Bit(b, j)
  {
  }

  lemma MaskedBit(b: Byte, keep: nat, j: nat)
    requires keep <= 8 && j < 8
    ensures Bit(b & LowMask(keep), j) <==> j < keep && Bit(b, j)
  {
    LowMaskBit(keep, j);
    AndBit(b, LowMask(keep), j);
  }

  lemma {:induction false} OnesUpTo(b: Byte, c: Byte, keep: nat, n: nat)
    requires keep <= 8 && n <= 8 && forall j: nat :: j < 8 ==> (Bit(c, j) <==> j < keep && Bit(b, j))
    ensures Ones(c, n) == Ones(b, if n < keep then n else keep)
    decreases n
  {
    if n > 0 { OnesUpTo(b, c, keep, n - 1); }
  }

  lemma MaskedOnes(b: Byte, keep: nat, n: nat)
    requires keep <= 8 && n <= 8
    ensures Ones(b & LowMask(keep), n) == Ones(b, if n < keep then n else keep)
  {
    forall j: nat | j < 8 ensures Bit(b & LowMask(keep), j) <==> j < keep && Bit(b, j) {
      MaskedBit(b, keep, j);
    }
    OnesUpTo(b, b & LowMask(keep), keep, n);
  }

  // ---- counting ---------------------------------------------------------------------

  /** The marked entries below n. */
  function Below(bm: seq<Byte>, n: nat): (r: set<nat>) {
    set i: nat | i < n && Has(bm, i)
  }

  lemma BelowNext(bm: seq<Byte>, n: nat)
    ensures |Below(bm, n + 1)| == |Below(bm, n)| + if Has(bm, n) then 1 else 0
  {
    hide Has;
    assert Below(bm, n + 1) == Below(bm, n) + if Has(bm, n) then {n} else {};
  }

  /** A byte adds its ones. */
  lemma {:induction false} ByteCounts(bm: seq<Byte>, i: nat, keep: nat)
    requires i < |bm| && keep <= 8
    ensures |Below(bm, 8 * i + keep)| == |Below(bm, 8 * i)| + Ones(bm[i], keep)
    decreases keep
  {
    if keep > 0 {
      ByteCounts(bm, i, keep - 1);
      BelowNext(bm, 8 * i + keep - 1);
    }
  }

  function UpTo(n: nat): (r: set<nat>)
    ensures |r| == n && forall i: nat :: i in r <==> i < n
  {
    if n == 0 then {} else UpTo(n - 1) + {n - 1}
  }

  /** The count falls short exactly when an entry is missing. */
  lemma ShortMisses(bm: seq<Byte>, n: nat)
    ensures |Below(bm, n)| < n <==> exists i: nat :: i < n && i !in Bits(bm)
  {
    var all := UpTo(n);
    if Below(bm, n) == all {
      forall i: nat | i < n ensures i in Bits(bm) {
        assert i in Below(bm, n);
        InBits(bm, i);
      }
    } else {
      assert Below(bm, n) < all;
      Fewer(Below(bm, n), all);
      var i :| i in all && i !in Below(bm, n);
      InBits(bm, i);
    }
  }

  // ---- the byte loops ---------------------------------------------------------------

  /** Set one bit in place; an index past the end is refused, and nothing changes. */
  method SetBit(bm: array<Byte>, i: nat) returns (ok: bool)
    modifies bm
    ensures ok <==> i / 8 < bm.Length
    ensures Bits(bm[..]) == if ok then old(Bits(bm[..])) + {i} else old(Bits(bm[..]))
  {
    ok := i / 8 < bm.Length;
    if ok {
      ghost var was := bm[..];
      bm[i / 8] := bm[i / 8] | Mask(i % 8);
      forall j: nat | j < 8 * bm.Length ensures Has(bm[..], j) <==> j == i || Has(was, j) {
        OrBit(was[i / 8], i % 8, j % 8);
      }
      assert Bits(bm[..]) == Bits(was) + {i};
    }
  }

  ghost predicate Ascending(s: seq<nat>) {
    forall a, b :: 0 <= a < b < |s| ==> s[a] < s[b]
  }

  /** The first `limit` marked entries from `from` on, in order. */
  method IdxsFrom(bm: seq<Byte>, from: nat, limit: nat) returns (out: seq<nat>)
    ensures Ascending(out) && |out| <= limit
    ensures forall i :: i in out ==> i in Bits(bm) && from <= i
    ensures forall i :: i in Bits(bm) && from <= i && i !in out ==> |out| == limit && forall j :: j in out ==> j < i
  {
    out := [];
    var i := from;
    while |out| < limit && i / 8 < |bm|
      invariant Ascending(out) && |out| <= limit
      invariant forall j :: j in out ==> j in Bits(bm) && from <= j < i
      invariant forall j :: j in Bits(bm) && from <= j < i ==> j in out
      decreases 8 * |bm| - i
    {
      InBits(bm, i);
      if Bit(bm[i / 8], i % 8) {
        assert forall a :: 0 <= a < |out| ==> out[a] in out;
        out := out + [i];
      }
      i := i + 1;
    }
  }

  /** `bm_popcount`. */
  method Popcount(bm: seq<Byte>) returns (n: nat)
    ensures n == |Bits(bm)|
  {
    n := 0;
    assert Below(bm, 0) == {};
    for i := 0 to |bm|
      invariant n == |Below(bm, 8 * i)|
    {
      ByteCounts(bm, i, 8);
      n := n + Ones(bm[i], 8);
    }
    assert Below(bm, 8 * |bm|) == Bits(bm);
  }

  /** Every bit `bitmap` marks is in `built`; bytes `built` lacks count as unbuilt. */
  method Subset(bitmap: seq<Byte>, built: seq<Byte>) returns (r: bool)
    ensures r <==> Bits(bitmap) <= Bits(built)
  {
    for i := 0 to |bitmap|
      invariant forall j: nat :: j < 8 * i && j in Bits(bitmap) ==> j in Bits(built)
    {
      var b := if i < |built| then built[i] else 0;
      MissingBits(bitmap[i], b);
      if bitmap[i] & !b != 0 {
        var k: nat :| k < 8 && Bit(bitmap[i], k) && !Bit(b, k);
        assert 8 * i + k in Bits(bitmap) && 8 * i + k !in Bits(built);
        return false;
      }
      forall j: nat | 8 * i <= j < 8 * i + 8 && j in Bits(bitmap) ensures j in Bits(built) {
        assert Bit(bitmap[i], j % 8);
        assert Bit(b, j % 8);
      }
    }
    return true;
  }

  function Keep(i: nat, count: nat): (r: nat)
    ensures r <= 8
  {
    if count <= 8 * i then 0 else if count - 8 * i < 8 then count - 8 * i else 8
  }

  function Capped(n: nat, count: nat): nat {
    if n < count then n else count
  }

  lemma KeptOnes(built: seq<Byte>, i: nat, count: nat)
    requires i < |built|
    ensures |Below(built, Capped(8 * i + 8, count))|
         == |Below(built, Capped(8 * i, count))| + Ones(built[i] & LowMask(Keep(i, count)), 8)
  {
    MaskedOnes(built[i], Keep(i, count), 8);
    ByteCounts(built, i, Keep(i, count));
  }

  /** `popcount(built) < count` over the entry range only: some entry was not copied. */
  method Lossy(built: seq<Byte>, count: nat) returns (r: bool)
    ensures r <==> exists i: nat :: i < count && i !in Bits(built)
  {
    var n := 0;
    assert Below(built, 0) == {};
    for i := 0 to |built|
      invariant n == |Below(built, Capped(8 * i, count))|
    {
      KeptOnes(built, i, count);
      n := n + Ones(built[i] & LowMask(Keep(i, count)), 8);
    }
    assert Below(built, Capped(8 * |built|, count)) == Below(built, count);
    ShortMisses(built, count);
    r := n < count;
  }

  const U32 := 0x1_0000_0000

  /** Every listed index is set; one that is no 32-bit index is not. */
  method AllSet(built: seq<Byte>, idxs: seq<int>) returns (r: bool)
    ensures r <==> forall i :: i in idxs ==> 0 <= i < U32 && i in Bits(built)
  {
    for k := 0 to |idxs|
      invariant forall j :: 0 <= j < k ==> 0 <= idxs[j] < U32 && idxs[j] in Bits(built)
    {
      assert idxs[k] in idxs;
      if !(0 <= idxs[k] < U32) { return false; }
      InBits(built, idxs[k]);
      if !Has(built, idxs[k]) { return false; }
    }
    return true;
  }

  // ---- the swap's choice ------------------------------------------------------------

  /** A row of `marked` joined with `packs`. */
  datatype MarkRow = MarkRow(pack: PackId, bitmap: seq<Byte>, builtNull: bool, built: seq<Byte>, count: nat)

  function Decode(r: MarkRow): Marks {
    Marks(Bits(r.bitmap), if r.builtNull then None else Some(Bits(r.built)))
  }

  ghost predicate Joined(rows: seq<MarkRow>, db: Store, m: Cohort) {
    && (forall i :: 0 <= i < |rows| ==>
      && rows[i].pack in m && m[rows[i].pack] == Decode(rows[i])
      && rows[i].pack in db.packs && db.packs[rows[i].pack].count == rows[i].count)
    && (forall p :: p in m ==> exists i :: 0 <= i < |rows| && rows[i].pack == p)
  }

  ghost predicate Misses(db: Store, m: Cohort, p: PackId)
    requires p in m && p in db.packs
  {
    exists i: nat :: i < db.packs[p].count && i !in BuiltBits(m[p])
  }

  /** The loop over the joined rows computes the protocol's retirable packs and whether
      retiring them loses entries. */
  method SwapChoice(rows: seq<MarkRow>, ghost db: Store, ghost m: Cohort) returns (ids: set<PackId>, lossy: bool)
    requires Joined(rows, db, m)
    ensures ids == Steps.SwapIds(m) && (lossy <==> Steps.Lossy(db, m, ids))
  {
    hide Bits, Steps.SwapIds, Misses, Decode;
    ids, lossy := {}, false;
    for k := 0 to |rows|
      invariant forall p :: p in ids ==> p in m && p in Steps.SwapIds(m) && p in db.packs
      invariant forall j :: 0 <= j < k && rows[j].pack in Steps.SwapIds(m) ==> rows[j].pack in ids
      invariant lossy <==> exists p :: p in ids && Misses(db, m, p)
    {
      var r := rows[k];
      RowChoice(r, db, m);
      if !r.builtNull {
        var whole := Subset(r.bitmap, r.built);
        if whole {
          var misses := Lossy(r.built, r.count);
          lossy := lossy || misses;
          ids := ids + {r.pack};
        }
      }
    }
    AllChosen(rows, db, m, ids);
  }

  lemma RowChoice(r: MarkRow, db: Store, m: Cohort)
    requires r.pack in m && m[r.pack] == Decode(r) && r.pack in db.packs && db.packs[r.pack].count == r.count
    ensures r.pack in Steps.SwapIds(m) <==> !r.builtNull && Bits(r.bitmap) <= Bits(r.built)
    ensures !r.builtNull ==> (Misses(db, m, r.pack) <==> exists i: nat :: i < r.count && i !in Bits(r.built))
  {
    hide Bits;
    if !r.builtNull { assert BuiltBits(m[r.pack]) == Bits(r.built); }
  }

  lemma AllChosen(rows: seq<MarkRow>, db: Store, m: Cohort, ids: set<PackId>)
    requires Joined(rows, db, m) && (forall p :: p in ids ==> p in m && p in Steps.SwapIds(m) && p in db.packs)
    requires forall j :: 0 <= j < |rows| && rows[j].pack in Steps.SwapIds(m) ==> rows[j].pack in ids
    ensures ids == Steps.SwapIds(m) && (Steps.Lossy(db, m, ids) <==> exists p :: p in ids && Misses(db, m, p))
  {
    hide Bits, Decode;
  }

  // ---- the fallback's choice ----------------------------------------------------------

  /** A row of `marked` joined with `packs`, and the indexes of the entries with no live copy
      outside the cohort. */
  datatype FallRow = FallRow(pack: PackId, builtNull: bool, built: seq<Byte>, bytes: int, need: seq<int>)

  ghost predicate Needs(db: Store, m: Cohort, p: PackId, need: seq<int>) {
    && (forall i :: i in need ==> exists x :: Copy(db, x, p) && db.rows[p][x] == i && !Outer(db, m, x))
    && (forall x :: Copy(db, x, p) && !Outer(db, m, x) ==> db.rows[p][x] in need)
  }

  ghost predicate FallJoined(rows: seq<FallRow>, db: Store, m: Cohort) {
    && (forall i :: 0 <= i < |rows| ==>
      && rows[i].pack in m && m[rows[i].pack].built == (if rows[i].builtNull then None else Some(Bits(rows[i].built)))
      && Needs(db, m, rows[i].pack, rows[i].need) && forall j :: j in rows[i].need ==> j < U32)
    && (forall p :: p in m ==> exists i :: 0 <= i < |rows| && rows[i].pack == p)
  }

  lemma FallbackIff(db: Store, m: Cohort, r: FallRow)
    requires r.pack in m && m[r.pack].built == (if r.builtNull then None else Some(Bits(r.built)))
    requires Needs(db, m, r.pack, r.need) && forall j :: j in r.need ==> j < U32
    ensures Steps.FallbackPack(db, m, r.pack) <==>
      !r.builtNull && forall i :: i in r.need ==> 0 <= i < U32 && i in Bits(r.built)
  {
    hide Bits, Outer;
  }

  function RetiredBytes(rows: seq<FallRow>, ids: set<PackId>, n: nat): int
    requires n <= |rows|
  {
    if n == 0 then 0 else RetiredBytes(rows, ids, n - 1) + if rows[n - 1].pack in ids then rows[n - 1].bytes else 0
  }

  /** The loop over the joined rows computes exactly the packs every entry of which was copied
      or lives elsewhere; they are retired if they weigh at least the build pack. */
  method FallbackChoice(rows: seq<FallRow>, buildBytes: int, ghost db: Store, ghost m: Cohort)
    returns (ids: set<PackId>, retire: bool)
    requires FallJoined(rows, db, m) && forall i, j :: 0 <= i < j < |rows| ==> rows[i].pack != rows[j].pack
    ensures forall p :: p in ids <==> Steps.FallbackPack(db, m, p)
    ensures retire <==> ids != {} && RetiredBytes(rows, ids, |rows|) >= buildBytes
  {
    hide Steps.FallbackPack, Needs, Bits;
    var bytes := 0;
    ids := {};
    for k := 0 to |rows|
      invariant forall p :: p in ids ==> Steps.FallbackPack(db, m, p) && exists j :: 0 <= j < k && rows[j].pack == p
      invariant forall j :: 0 <= j < k && Steps.FallbackPack(db, m, rows[j].pack) ==> rows[j].pack in ids
      invariant bytes == RetiredBytes(rows, ids, k)
    {
      var r := rows[k];
      var all := AllSet(r.built, r.need);
      FallbackIff(db, m, r);
      if !r.builtNull && all {
        RetiredGrows(rows, ids, r.pack, k);
        bytes := bytes + r.bytes;
        ids := ids + {r.pack};
      }
    }
    forall p | Steps.FallbackPack(db, m, p) ensures p in ids {
      FallbackInCohort(db, m, p);
    }
    retire := ids != {} && bytes >= buildBytes;
  }

  lemma FallbackInCohort(db: Store, m: Cohort, p: PackId)
    requires Steps.FallbackPack(db, m, p)
    ensures p in m
  {
  }

  lemma {:induction false} RetiredGrows(rows: seq<FallRow>, ids: set<PackId>, p: PackId, n: nat)
    requires n <= |rows| && forall j :: 0 <= j < n ==> rows[j].pack != p
    ensures RetiredBytes(rows, ids + {p}, n) == RetiredBytes(rows, ids, n)
  {
    if n > 0 { RetiredGrows(rows, ids, p, n - 1); }
  }
}
