/** The marks of a fetch while packs are compacted under it: the walk records every object it
    marks, and a plan whose packs have moved is rebuilt once from that list. */
module Replan {
  import opened Repository
  import opened Bitmaps
  import opened Shape
  import opened Steps
  import opened Marking
  import opened Generations
  import opened Invariant
  import opened Frames
  import opened Runs

  /** An index row: the pack and the entry's index in it. */
  datatype Place = Place(pack: PackId, idx: nat)

  /** `lookup`: some live copy of an object, if there is one. */
  type Lookup = Sha -> Option<Place>

  predicate At(db: Store, x: Sha, l: Place) {
    Copy(db, x, l.pack) && db.rows[l.pack][x] == l.idx
  }

  ghost predicate LookupOk(db: Store, lookup: Lookup) {
    && (forall x :: lookup(x).Some? <==> Alive(db, x))
    && (forall x :: lookup(x).Some? ==> LivePack(db, lookup(x).value.pack) && At(db, x, lookup(x).value))
  }

  type Slices = map<PackId, seq<Byte>>

  ghost predicate IsMarked(m: Slices, l: Place) {
    l.pack in m && l.idx in Bits(m[l.pack])
  }

  /** A pack's bitmap has room for its entries. */
  ghost predicate Sized(db: Store, m: Slices) {
    forall p :: p in m && p in db.packs ==> |m[p]| == (db.packs[p].count + 7) / 8
  }

  method SetIn(bm: seq<Byte>, i: nat) returns (r: seq<Byte>, ok: bool)
    ensures ok <==> i / 8 < |bm|
    ensures |r| == |bm| && Bits(r) == if ok then Bits(bm) + {i} else Bits(bm)
  {
    hide Bits;
    var a := new Byte[|bm|](j requires 0 <= j < |bm| => bm[j]);
    assert a[..] == bm;
    ok := SetBit(a, i);
    r := a[..];
  }

  lemma EmptyBits(n: nat)
    ensures Bits(seq(n, _ => 0)) == {}
  {
    var bm: seq<Byte> := seq(n, _ => 0);
    forall i: nat ensures !Has(bm, i) {
      if i / 8 < |bm| { assert bm[i / 8] == 0; }
    }
  }

  /** Set the bit of a place, with a new slice for a live pack met first. */
  method SetPlace(db: Store, m: Slices, l: Place) returns (m': Slices, ok: bool)
    requires Sized(db, m) && LivePack(db, l.pack) && l.idx < db.packs[l.pack].count
    ensures ok && Sized(db, m') && forall k :: IsMarked(m', k) <==> IsMarked(m, k) || k == l
  {
    hide Bits;
    var bm := if l.pack in m then m[l.pack] else seq((db.packs[l.pack].count + 7) / 8, _ => 0);
    EmptyBits((db.packs[l.pack].count + 7) / 8);
    bm, ok := SetIn(bm, l.idx);
    m' := m[l.pack := bm];
  }

  /** Exactly the places the lookup gives for these objects are marked. */
  ghost predicate Resolved(m: Slices, lookup: Lookup, shas: seq<Sha>) {
    && (forall x :: x in shas ==> lookup(x).Some? && IsMarked(m, lookup(x).value))
    && (forall l :: IsMarked(m, l) ==> exists x :: x in shas && lookup(x) == Some(l))
  }

  /** `rebuild_with`: it succeeds exactly when every recorded object is live. */
  method Rebuild(db: Store, lookup: Lookup, shas: seq<Sha>) returns (m: Slices, ok: bool)
    requires StoreOk(db) && LookupOk(db, lookup)
    ensures ok <==> forall x :: x in shas ==> Alive(db, x)
    ensures ok ==> Sized(db, m) && Resolved(m, lookup, shas)
  {
    hide IsMarked, Alive;
    m, ok := map[], true;
    NothingMarked();
    for k := 0 to |shas|
      invariant ok && Sized(db, m) && Resolved(m, lookup, shas[..k])
      invariant forall j :: 0 <= j < k ==> Alive(db, shas[j])
    {
      var x := shas[k];
      assert x in shas && shas[..k + 1] == shas[..k] + [x];
      var l := lookup(x);
      if l.None? { return m, false; }
      m, ok := SetPlace(db, m, l.value);
    }
    assert shas[..|shas|] == shas;
  }

  lemma NothingMarked()
    ensures forall l :: !IsMarked(map[], l)
  {
  }

  // ---- the set under way ----------------------------------------------------------------

  class SendSet {
    var slices: Slices
    /** The recorded objects; none on the path that does not walk. */
    var shas: Option<seq<Sha>>
    var stale: bool

    /** What was marked at each place. */
    ghost var origin: map<Place, Sha>

    /** Every bit is a recorded object's, and every recorded object has one or the set is stale. */
    ghost predicate Valid()
      reads this
    {
      && (forall l :: IsMarked(slices, l) <==> l in origin)
      && (shas.None? ==> !stale)
      && (shas.Some? ==>
           && (forall l :: l in origin ==> origin[l] in shas.value)
           && (!stale ==> forall x :: x in shas.value ==> exists l :: l in origin && origin[l] == x))
    }

    constructor (walk: bool)
      ensures Valid() && slices == map[] && stale == false && shas == (if walk then Some([]) else None)
      ensures origin == map[]
    {
      slices, shas, stale, origin := map[], if walk then Some([]) else None, false, map[];
    }

    /** `mark_with`: a pack that is gone makes the walk's set stale, and refuses the other's. */
    method Mark(db: Store, x: Sha, l: Place) returns (ok: bool)
      requires Valid() && StoreOk(db) && Sized(db, slices)
      requires LivePack(db, l.pack) ==> At(db, x, l)
      requires l in origin ==> origin[l] == x
      requires l.pack in slices && !LivePack(db, l.pack) ==> l.idx / 8 < |slices[l.pack]|
      modifies this
      ensures ok ==> Valid() && shas == (if old(shas).Some? then Some(old(shas).value + [x]) else None)
      ensures ok <==> l.pack in old(slices) || LivePack(db, l.pack) || old(shas).Some?
      ensures ok ==> (stale <==> old(stale) || (l.pack !in old(slices) && !LivePack(db, l.pack)))
      ensures ok && (l.pack in old(slices) || LivePack(db, l.pack)) ==> origin == old(origin)[l := x]
    {
      hide IsMarked;
      if shas.Some? { shas := Some(shas.value + [x]); }
      if l.pack !in slices && !LivePack(db, l.pack) {
        if shas.None? { return false; }
        stale := true;
        return true;
      }
      slices := Put(db, slices, x, l);
      origin := origin[l := x];
      if shas.Some? && !stale { StillRecorded(old(origin), origin, old(shas.value), x, l); }
      ok := true;
    }
  }

  lemma StillRecorded(origin: map<Place, Sha>, more: map<Place, Sha>, shas: seq<Sha>, x: Sha, l: Place)
    requires more == origin[l := x] && (l in origin ==> origin[l] == x)
    requires forall y :: y in shas ==> exists k :: k in origin && origin[k] == y
    ensures forall y :: y in shas + [x] ==> exists k :: k in more && more[k] == y
  {
    forall y | y in shas + [x] ensures exists k :: k in more && more[k] == y {
      if y in shas {
        var k :| k in origin && origin[k] == y;
        assert k in more && more[k] == y;
      } else {
        assert l in more && more[l] == x;
      }
    }
  }

  /** A slice met before takes the bit whether or not its pack is still live. */
  method Put(db: Store, m: Slices, x: Sha, l: Place) returns (m': Slices)
    requires StoreOk(db) && Sized(db, m) && (LivePack(db, l.pack) ==> At(db, x, l))
    requires l.pack in m || LivePack(db, l.pack)
    requires l.pack in m && !LivePack(db, l.pack) ==> l.idx / 8 < |m[l.pack]|
    ensures forall k :: IsMarked(m', k) <==> IsMarked(m, k) || k == l
  {
    hide Bits;
    if LivePack(db, l.pack) {
      var ok;
      m', ok := SetPlace(db, m, l);
    } else {
      var bm, ok := SetIn(m[l.pack], l.idx);
      m' := m[l.pack := bm];
    }
  }

  // ---- planning -------------------------------------------------------------------------

  /** A pack's rows never change while they stand. */
  ghost predicate Immutable(db: Store, origin: map<Place, Sha>) {
    forall l, y :: l in origin && At(db, y, l) ==> y == origin[l]
  }

  /** Every bit still has its row. */
  ghost predicate AllThere(db: Store, m: Slices) {
    forall l :: IsMarked(m, l) ==> exists y :: At(db, y, l)
  }

  /** The entries of a pack's bitmap, as `entries_of` lists them. */
  function Listed(rows: map<Sha, nat>, bits: set<nat>): set<Sha> {
    set x | x in rows && rows[x] in bits
  }

  lemma {:induction false} ListedCount(rows: map<Sha, nat>, bits: set<nat>)
    requires Steps.Ordinals(rows)
    ensures |Listed(rows, bits)| <= |bits|
    ensures |Listed(rows, bits)| == |bits| <==> forall i :: i in bits ==> exists x :: x in rows && rows[x] == i
  {
    var found := set x | x in Listed(rows, bits) :: rows[x];
    ImageCount(rows, Listed(rows, bits));
    assert found <= bits;
    Fewer(found, bits);
    if found == bits {
      forall i | i in bits ensures exists x :: x in rows && rows[x] == i { assert i in found; }
    } else {
      var i :| i in bits && i !in found;
      assert forall x :: x in rows && rows[x] == i ==> x in Listed(rows, bits);
    }
  }

  lemma {:induction false} ImageCount(rows: map<Sha, nat>, s: set<Sha>)
    requires Steps.Ordinals(rows) && s <= rows.Keys
    ensures |set x | x in s :: rows[x]| == |s|
  {
    var image := set x | x in s :: rows[x];
    if s == {} {
      assert image == {};
    } else {
      var y :| y in s;
      ImageCount(rows, s - {y});
      var rest := set x | x in s - {y} :: rows[x];
      assert image == rest + {rows[y]} && rows[y] !in rest;
    }
  }

  function Rows(db: Store, p: PackId): map<Sha, nat> {
    if p in db.rows then db.rows[p] else map[]
  }

  /** The loop over the packs: as many entries as marks in each. */
  method Stands(db: Store, m: Slices) returns (there: bool)
    requires StoreOk(db)
    ensures there <==> AllThere(db, m)
  {
    var todo := m.Keys;
    while todo != {}
      invariant todo <= m.Keys
      invariant forall l :: IsMarked(m, l) && l.pack !in todo ==> exists y :: At(db, y, l)
      decreases todo
    {
      var p :| p in todo;
      todo := todo - {p};
      ListedCount(Rows(db, p), Bits(m[p]));
      var n := Popcount(m[p]);
      if |Listed(Rows(db, p), Bits(m[p]))| != n {
        var i :| i in Bits(m[p]) && forall x :: x in Rows(db, p) ==> Rows(db, p)[x] != i;
        assert IsMarked(m, Place(p, i));
        return false;
      }
      forall l | IsMarked(m, l) && l.pack == p ensures exists y :: At(db, y, l) {
        var y :| y in Rows(db, p) && Rows(db, p)[y] == l.idx;
        assert At(db, y, l);
      }
    }
    return true;
  }

  /** The marks stand for exactly these objects: each has a marked row, each marked row is one. */
  ghost predicate Serves(db: Store, m: Slices, shas: seq<Sha>) {
    && (forall x :: x in shas ==> exists l :: IsMarked(m, l) && At(db, x, l))
    && (forall l :: IsMarked(m, l) ==> exists x :: x in shas && At(db, x, l))
  }

  lemma StandingServes(db: Store, m: Slices, origin: map<Place, Sha>, shas: seq<Sha>)
    requires Immutable(db, origin) && AllThere(db, m) && (forall l :: IsMarked(m, l) <==> l in origin)
    requires (forall l :: l in origin ==> origin[l] in shas)
    requires forall x :: x in shas ==> exists l :: l in origin && origin[l] == x
    ensures Serves(db, m, shas)
  {
    hide IsMarked;
    forall x | x in shas ensures exists l :: IsMarked(m, l) && At(db, x, l) {
      var l :| l in origin && origin[l] == x;
      var y :| At(db, y, l);
      assert IsMarked(m, l) && At(db, x, l);
    }
  }

  lemma ResolvedServes(db: Store, m: Slices, lookup: Lookup, shas: seq<Sha>)
    requires LookupOk(db, lookup) && Resolved(m, lookup, shas)
    ensures Serves(db, m, shas) && AllThere(db, m)
  {
    hide IsMarked;
    forall l | IsMarked(m, l) ensures exists x :: x in shas && At(db, x, l) {
      var x :| x in shas && lookup(x) == Some(l);
      assert At(db, x, l);
    }
  }

  /** `plan_reads` up to the reads: one rebuild at most, and none is ever needed twice. The
      plan serves exactly the recorded objects; it is refused only when one of them is gone. */
  method Settle(sending: SendSet, db: Store, lookup: Lookup) returns (ok: bool)
    requires sending.Valid() && sending.shas.Some? && StoreOk(db) && LookupOk(db, lookup)
    requires Immutable(db, sending.origin)
    modifies sending
    ensures sending.shas == old(sending.shas)
    ensures ok ==> Serves(db, sending.slices, sending.shas.value) && AllThere(db, sending.slices)
    ensures ok <==>
      (!old(sending.stale) && AllThere(db, old(sending.slices))) || forall x :: x in sending.shas.value ==> Alive(db, x)
  {
    hide IsMarked, Alive, Serves, AllThere, Resolved, Immutable;
    var there := Stands(db, sending.slices);
    if !sending.stale && there {
      StandingServes(db, sending.slices, sending.origin, sending.shas.value);
      return true;
    }
    var m;
    m, ok := Rebuild(db, lookup, sending.shas.value);
    if ok {
      ResolvedServes(db, m, lookup, sending.shas.value);
      sending.slices, sending.stale := m, false;
    }
  }

  // ---- a fetch in a run ----------------------------------------------------------------

  /** Every row names what its pack's bytes hold at its index. */
  ghost predicate RowsPlaced(g: Content, db: Store) {
    forall p :: p in db.rows ==> Placed(g, p, db.rows[p])
  }

  lemma EnvPlaced(g: Content, s: State, a: Action, t: State)
    requires EnvFamily(g, s, a, t) && TouchesStore(a) && RowsPlaced(g, s.db)
    ensures RowsPlaced(g, t.db)
  {
    hide Placed, StopStep, BumpVersionStep, RejectStep, IngestRowsStep, ReapStep;
    if a.IngestRows? {
      IngestPlaced(g, s, a.pack, a.count, a.rows, t);
    } else if a.Reject? {
      RejectPlaced(g, s, a.pack, t);
    } else {
      ReapPlaced(g, s, a.pack, t);
    }
  }

  lemma IngestPlaced(g: Content, s: State, p: PackId, count: nat, rows: map<Sha, nat>, t: State)
    requires IngestRowsStep(s, p, count, rows, t) && Placed(g, p, rows) && RowsPlaced(g, s.db)
    ensures RowsPlaced(g, t.db)
  {
    hide Ordinals, Fresh;
  }

  lemma RejectPlaced(g: Content, s: State, p: PackId, t: State)
    requires RejectStep(s, p, t) && RowsPlaced(g, s.db)
    ensures RowsPlaced(g, t.db)
  {
    hide Placed, SetState;
  }

  lemma ReapPlaced(g: Content, s: State, p: PackId, t: State)
    requires ReapStep(s, p, t) && RowsPlaced(g, s.db)
    ensures RowsPlaced(g, t.db)
  {
    hide Placed;
  }

  lemma PlainPlaced(g: Content, s: State, a: Action, t: State)
    requires PlainFamily(g, s, a, t) && TouchesStore(a) && RowsPlaced(g, s.db)
    ensures RowsPlaced(g, t.db)
  {
    hide Alive;
  }

  lemma PushPlaced(g: Content, s: State, a: Action, t: State)
    requires PushFamily(g, s, a, t) && TouchesStore(a) && RowsPlaced(g, s.db)
    ensures RowsPlaced(g, t.db)
  {
    hide Alive, Upsert, Promotable;
  }

  lemma BuildPlaced(g: Content, s: State, a: Action, t: State)
    requires BuildFamily(g, s, a, t) && TouchesStore(a) && RowsPlaced(g, s.db)
    ensures RowsPlaced(g, t.db)
  {
    hide BuiltSha, Ordinals, Whole, Exhausted, Fresh, Frozen;
  }

  lemma RetirePlaced(g: Content, s: State, a: Action, t: State)
    requires RetireFamily(g, s, a, t) && RowsPlaced(g, s.db)
    ensures RowsPlaced(g, t.db)
  {
    hide Whole, Steps.Lossy, FallbackPack;
  }

  lemma WipePlaced(g: Content, s: State, a: Action, t: State)
    requires WipeFamily(g, s, a, t) && RowsPlaced(g, s.db)
    ensures RowsPlaced(g, t.db)
  {
    hide Whole;
  }

  lemma FinishPlaced(g: Content, s: State, a: Action, t: State)
    requires FinishFamily(g, s, a, t) && RowsPlaced(g, s.db)
    ensures RowsPlaced(g, t.db)
  {
    hide Exhausted, DedupMarks;
  }

  lemma StepPlaced(g: Content, s: State, a: Action, t: State)
    requires Step(g, s, a, t) && RowsPlaced(g, s.db)
    ensures RowsPlaced(g, t.db)
  {
    hide EnvFamily, PlainFamily, PushFamily, WalkFamily, PageFamily, BuildFamily, RetireFamily, WipeFamily,
      FinishFamily, RowsPlaced, Frame;
    if !TouchesStore(a) { StoreFrame(g, s, a, t); }
    else if EnvAction(a) { EnvPlaced(g, s, a, t); }
    else if PlainAction(a) { PlainPlaced(g, s, a, t); }
    else if PushAction(a) { PushPlaced(g, s, a, t); }
    else if BuildAction(a) { BuildPlaced(g, s, a, t); }
    else if RetireAction(a) { RetirePlaced(g, s, a, t); }
    else if WipeAction(a) { WipePlaced(g, s, a, t); }
    else { FinishPlaced(g, s, a, t); }
  }

  lemma {:induction false} RunPlaced(g: Content, states: seq<State>, acts: seq<Action>, i: nat)
    requires Run(g, states, acts) && i < |states| && RowsPlaced(g, states[0].db)
    ensures RowsPlaced(g, states[i].db)
  {
    hide Step, RowsPlaced;
    if i > 0 {
      RunPlaced(g, states, acts, i - 1);
      assert StepAt(g, states, acts, i - 1);
      StepPlaced(g, states[i - 1], acts[i - 1], states[i]);
    }
  }

  /** A place some state of the run had for an object is that object's in every state. */
  ghost predicate Known(states: seq<State>, origin: map<Place, Sha>) {
    forall l :: l in origin ==> exists k :: 0 <= k < |states| && At(states[k].db, origin[l], l)
  }

  lemma RunImmutable(g: Content, states: seq<State>, acts: seq<Action>, origin: map<Place, Sha>, j: nat)
    requires Run(g, states, acts) && j < |states| && RowsPlaced(g, states[0].db) && Known(states, origin)
    ensures Immutable(states[j].db, origin)
  {
    hide Run;
    forall l, y | l in origin && At(states[j].db, y, l) ensures y == origin[l] {
      var k :| 0 <= k < |states| && At(states[k].db, origin[l], l);
      RunPlaced(g, states, acts, k);
      RunPlaced(g, states, acts, j);
    }
  }

  /** The fetch met the object live between two spans. */
  ghost predicate Met(states: seq<State>, i: nat, j: nat, x: Sha) {
    exists k {:trigger states[k]} :: i <= k <= j && k < |states| && states[k].span.Idle? && Alive(states[k].db, x)
  }

  /** In any run, what a fetch marked is live as long as the epoch stands: compactions, builds,
      fallbacks and pushes leave every plan servable. */
  lemma MarksStayLive(g: Content, states: seq<State>, acts: seq<Action>, i: nat, j: nat, shas: seq<Sha>)
    requires RunFrom(g, states, acts) && i <= j < |states| && states[i].epoch == states[j].epoch
    requires Steady(states, acts, i, j) && states[j].span.Idle? && forall x :: x in shas ==> Met(states, i, j, x)
    ensures forall x :: x in shas ==> Alive(states[j].db, x)
  {
    hide RunFrom, Trustworthy;
    assert RunFrom(g, states, acts) ==> Run(g, states, acts) by { RunOf(g, states, acts); }
    forall x | x in shas ensures Alive(states[j].db, x) {
      var k :| i <= k <= j && states[k].span.Idle? && Alive(states[k].db, x);
      EpochOrder(g, states, acts, i, k);
      EpochOrder(g, states, acts, k, j);
      EpochGrows(g, states, acts, k, j);
    }
  }

  /** So in any run of one epoch the plan is served: compacted packs cost one rebuild. */
  method SettleInEpoch(ghost g: Content, ghost states: seq<State>, ghost acts: seq<Action>, ghost i: nat,
                       ghost j: nat, sending: SendSet, db: Store, lookup: Lookup) returns (ok: bool)
    requires RunFrom(g, states, acts) && i <= j < |states| && states[i].epoch == states[j].epoch
    requires Steady(states, acts, i, j) && states[j].span.Idle? && RowsPlaced(g, states[0].db)
    requires db == states[j].db && LookupOk(db, lookup) && sending.Valid() && sending.shas.Some?
    requires Known(states, sending.origin) && forall x :: x in sending.shas.value ==> Met(states, i, j, x)
    modifies sending
    ensures ok && sending.shas == old(sending.shas) && Serves(db, sending.slices, sending.shas.value)
  {
    hide RunFrom, Met, Steady, Known, RowsPlaced, Immutable, Serves, IsMarked, Alive, LookupOk;
    assert Run(g, states, acts) by { RunOf(g, states, acts); }
    MarksStayLive(g, states, acts, i, j, sending.shas.value);
    RunImmutable(g, states, acts, sending.origin, j);
    RunStore(g, states, acts, j);
    ok := Settle(sending, db, lookup);
  }

  lemma RunStore(g: Content, states: seq<State>, acts: seq<Action>, j: nat)
    requires RunFrom(g, states, acts) && j < |states|
    ensures StoreOk(states[j].db)
  {
    hide RunFrom, StoreOk, MarkOk, GenOk, SpanOk, PlanOk, TrustOk, ChainOk, QueueOk, PinsOk;
    assert Inv(g, states[j]) by { RunInvariant(g, states, acts, j); }
  }
}
