/** Normalizing a received pack: entries may be deltas on earlier entries, on objects of the
    repository, or on objects that a later entry of the same pack turns out to be. */
module WakeQueue {
  import opened Repository

  datatype Obj = Obj(kind: Kind, data: seq<bv8>)

  /** `OfsDelta(None)`: the offset is not that of an earlier entry. */
  datatype Head = Full | OfsDelta(base: Option<nat>) | RefDelta(id: Sha)

  /** The pack: headers, the decoders they drive, and the repository's bases. */
  datatype Pack = Pack(heads: seq<Head>, full: nat -> Obj, patch: (nat, Obj) -> Obj, hash: Obj -> Sha,
                       externals: map<Sha, Obj>)

  ghost predicate Wf(p: Pack) {
    forall i :: 0 <= i < |p.heads| && p.heads[i].OfsDelta? && p.heads[i].base.Some? ==> p.heads[i].base.value < i
  }

  /** An id names one object. */
  ghost predicate Collisionless(p: Pack) {
    && (forall id :: id in p.externals ==> p.hash(p.externals[id]) == id)
    && (forall a, b :: p.hash(a) == p.hash(b) ==> a == b)
  }

  // ---- what the entries are ---------------------------------------------------------

  /** Entry i is object o, by a derivation of height n. */
  ghost predicate Derives(p: Pack, n: nat, i: nat, o: Obj)
    decreases n
  {
    && n > 0 && i < |p.heads|
    && var m := n - 1;
       match p.heads[i]
       case Full => o == p.full(i)
       case OfsDelta(base) => base.Some? && exists v :: Derives(p, m, base.value, v) && o == p.patch(i, v)
       case RefDelta(id) =>
         || (id in p.externals && o == p.patch(i, p.externals[id]))
         || exists j, v :: Derives(p, m, j, v) && p.hash(v) == id && o == p.patch(i, v)
  }

  ghost predicate Is(p: Pack, i: nat, o: Obj) {
    exists n: nat :: Derives(p, n, i, o)
  }

  /** The least fixpoint of resolvable entries. */
  ghost predicate Resolvable(p: Pack, i: nat) {
    exists o :: Is(p, i, o)
  }

  /** An entry is at most one object. */
  lemma {:induction false} Unique(p: Pack, n: nat, m: nat, i: nat, a: Obj, b: Obj)
    requires Collisionless(p) && Derives(p, n, i, a) && Derives(p, m, i, b)
    ensures a == b
    decreases n
  {
    match p.heads[i]
    case Full =>
    case OfsDelta(base) =>
      var v :| Derives(p, n - 1, base.value, v) && a == p.patch(i, v);
      var w :| Derives(p, m - 1, base.value, w) && b == p.patch(i, w);
      Unique(p, n - 1, m - 1, base.value, v, w);
    case RefDelta(id) =>
  }

  // ---- one attempt ------------------------------------------------------------------

  datatype Base = Ready(obj: Obj) | Await(id: Sha) | Bad

  /** The entries emitted so far, and the id map they fill. */
  datatype Known = Known(done: map<nat, Obj>, byId: map<Sha, nat>)

  ghost predicate KnownOk(p: Pack, k: Known) {
    && (forall i :: i in k.done ==> i < |p.heads| && Is(p, i, k.done[i]))
    && (forall id :: id in k.byId ==> k.byId[id] in k.done && p.hash(k.done[k.byId[id]]) == id)
  }

  /** Walk entry i's chain back to a full entry or a base found by id, then apply forward. */
  function Walk(p: Pack, k: Known, i: nat): Base
    requires i < |p.heads| && Wf(p) && KnownOk(p, k)
  {
    match p.heads[i]
    case Full => Ready(p.full(i))
    case OfsDelta(base) =>
      if base.None? then Bad else
        (match Walk(p, k, base.value)
         case Ready(o) => Ready(p.patch(i, o))
         case other => other)
    case RefDelta(id) =>
      if id in k.byId then Ready(p.patch(i, k.done[k.byId[id]]))
      else if id in p.externals then Ready(p.patch(i, p.externals[id]))
      else Await(id)
  }

  /** What stands at the end of an entry's offset chain. */
  function Root(p: Pack, i: nat): Head
    requires i < |p.heads| && Wf(p)
  {
    match p.heads[i]
    case OfsDelta(Some(b)) => Root(p, b)
    case h => h
  }

  predicate Found(p: Pack, k: Known, id: Sha) {
    id in k.byId || id in p.externals
  }

  /** The attempt's outcome depends on the root alone. */
  lemma {:induction false} WalkRoot(p: Pack, k: Known, i: nat)
    requires i < |p.heads| && Wf(p) && KnownOk(p, k)
    ensures Walk(p, k, i).Bad? <==> Root(p, i).OfsDelta?
    ensures Walk(p, k, i).Await? <==> Root(p, i).RefDelta? && !Found(p, k, Root(p, i).id)
    ensures Walk(p, k, i).Await? ==> Walk(p, k, i).id == Root(p, i).id
  {
    match p.heads[i]
    case OfsDelta(Some(b)) => WalkRoot(p, k, b);
    case _ =>
  }

  lemma {:induction false} WalkSound(p: Pack, k: Known, i: nat)
    requires i < |p.heads| && Wf(p) && KnownOk(p, k) && Walk(p, k, i).Ready?
    ensures Is(p, i, Walk(p, k, i).obj)
  {
    match p.heads[i]
    case Full =>
      assert Derives(p, 1, i, p.full(i));
    case OfsDelta(base) =>
      WalkSound(p, k, base.value);
      var n: nat :| Derives(p, n, base.value, Walk(p, k, base.value).obj);
      assert Derives(p, n + 1, i, Walk(p, k, i).obj);
    case RefDelta(id) =>
      if id in k.byId {
        var j := k.byId[id];
        var n: nat :| Derives(p, n, j, k.done[j]);
        assert Derives(p, n + 1, i, Walk(p, k, i).obj);
      } else {
        assert Derives(p, 1, i, Walk(p, k, i).obj);
      }
  }

  // ---- the queue --------------------------------------------------------------------

  datatype Row = Row(idx: nat, sha: Sha)

  /** The loop's variables: what is emitted, the entries still to try, and the entries
      parked on an id. */
  datatype Queue = Queue(known: Known, todo: seq<nat>, pending: map<Sha, seq<nat>>, rows: seq<Row>)

  predicate AsksById(p: Pack) {
    exists i :: 0 <= i < |p.heads| && p.heads[i].RefDelta?
  }

  function Parked(pending: map<Sha, seq<nat>>, id: Sha): seq<nat> {
    if id in pending then pending[id] else []
  }

  function Start(p: Pack): Queue {
    Queue(Known(map[], map[]), seq(|p.heads|, i => i), map[], [])
  }

  /** Emit `e` as object `o` and wake exactly the entries parked on its id. */
  function Emit(p: Pack, q: Queue, e: nat, o: Obj): Queue
    requires q.todo != []
  {
    var id := p.hash(o);
    Queue(Known(q.known.done[e := o], if AsksById(p) then q.known.byId[id := e] else q.known.byId),
          q.todo[1..] + Parked(q.pending, id), q.pending - {id}, q.rows + [Row(e, id)])
  }

  function Park(q: Queue, e: nat, id: Sha): Queue
    requires q.todo != []
  {
    q.(todo := q.todo[1..], pending := q.pending[id := Parked(q.pending, id) + [e]])
  }

  /** One turn of the loop. A broken chain stops it. */
  ghost predicate Turn(p: Pack, q: Queue, q': Queue)
    requires Wf(p)
  {
    && KnownOk(p, q.known) && q.todo != [] && q.todo[0] < |p.heads|
    && match Walk(p, q.known, q.todo[0])
       case Ready(o) => q' == Emit(p, q, q.todo[0], o)
       case Await(id) => q' == Park(q, q.todo[0], id)
       case Bad => false
  }

  ghost predicate Once(s: seq<nat>) {
    forall a, b :: 0 <= a < b < |s| ==> s[a] != s[b]
  }

  ghost predicate Queued(p: Pack, q: Queue) {
    Once(q.todo) && forall e :: e in q.todo ==> e < |p.heads| && e !in q.known.done
  }

  /** Parked entries wait for an id nobody knows yet, each in one place. */
  ghost predicate Waiting(p: Pack, q: Queue)
    requires Wf(p)
  {
    && (forall id :: id in q.pending ==> !Found(p, q.known, id) && q.pending[id] != [] && Once(q.pending[id]))
    && (forall id, e {:trigger e in q.pending[id]} :: id in q.pending && e in q.pending[id] ==>
      e < |p.heads| && Root(p, e) == RefDelta(id) && e !in q.known.done && e !in q.todo)
  }

  /** No wake-up is lost: an entry not emitted is in the queue or parked on its root's id. */
  ghost predicate Accounted(p: Pack, q: Queue)
    requires Wf(p)
  {
    forall e: nat :: e < |p.heads| && e !in q.known.done ==>
      e in q.todo || (Root(p, e).RefDelta? && e in Parked(q.pending, Root(p, e).id))
  }

  /** Every emitted object can be found by its id, when any entry may ask; and an emitted
      entry's own root was found. */
  ghost predicate Listed(p: Pack, k: Known)
    requires Wf(p) && KnownOk(p, k)
  {
    && (AsksById(p) ==> forall i :: i in k.done ==> p.hash(k.done[i]) in k.byId)
    && (forall i :: i in k.done ==> !Root(p, i).OfsDelta? && (Root(p, i).RefDelta? ==> Found(p, k, Root(p, i).id)))
  }

  /** One row per emitted entry. */
  ghost predicate RowsMatch(p: Pack, done: map<nat, Obj>, rows: seq<Row>) {
    && (forall a, b :: 0 <= a < b < |rows| ==> rows[a].idx != rows[b].idx)
    && (forall a :: 0 <= a < |rows| ==> rows[a].idx in done && rows[a].sha == p.hash(done[rows[a].idx]))
  }

  ghost predicate HasRow(rows: seq<Row>, e: nat) {
    exists a :: 0 <= a < |rows| && rows[a].idx == e
  }

  /** .. each after the object its root names. */
  ghost predicate BasesFirst(p: Pack, rows: seq<Row>)
    requires Wf(p)
  {
    forall a :: 0 <= a < |rows| ==> rows[a].idx < |p.heads| && BaseFirst(p, rows, a)
  }

  ghost predicate Emitted(p: Pack, q: Queue)
    requires Wf(p)
  {
    RowsMatch(p, q.known.done, q.rows) && BasesFirst(p, q.rows) && forall e :: e in q.known.done ==> HasRow(q.rows, e)
  }

  ghost predicate BaseFirst(p: Pack, rows: seq<Row>, a: nat)
    requires Wf(p) && a < |rows| && rows[a].idx < |p.heads|
  {
    var root := Root(p, rows[a].idx);
    root.RefDelta? ==> root.id in p.externals || exists b :: 0 <= b < a && rows[b].sha == root.id
  }

  ghost predicate Good(p: Pack, q: Queue) {
    && Wf(p) && KnownOk(p, q.known) && Queued(p, q) && Waiting(p, q) && Accounted(p, q)
    && Listed(p, q.known) && Emitted(p, q)
  }

  /** When nothing is left to try, an entry with a derivation has been emitted. */
  lemma {:induction false} Exhausted(p: Pack, q: Queue, n: nat, i: nat, o: Obj)
    requires Collisionless(p) && Good(p, q) && q.todo == [] && Derives(p, n, i, o)
    ensures i in q.known.done && q.known.done[i] == o
    decreases n, 1
  {
    if i !in q.known.done { Unparked(p, q, n, i, o); }
    var m: nat :| Derives(p, m, i, q.known.done[i]);
    Unique(p, n, m, i, o, q.known.done[i]);
  }

  /** .. because the id its root asks for is known. */
  lemma {:induction false} Unparked(p: Pack, q: Queue, n: nat, i: nat, o: Obj)
    requires Collisionless(p) && Good(p, q) && q.todo == [] && Derives(p, n, i, o)
    ensures Root(p, i).Full? || (Root(p, i).RefDelta? && Found(p, q.known, Root(p, i).id))
    decreases n, 0
  {
    match p.heads[i]
    case Full =>
    case OfsDelta(base) =>
      var v :| Derives(p, n - 1, base.value, v) && o == p.patch(i, v);
      Unparked(p, q, n - 1, base.value, v);
    case RefDelta(id) =>
      if id !in p.externals {
        var j, v :| Derives(p, n - 1, j, v) && p.hash(v) == id && o == p.patch(i, v);
        Exhausted(p, q, n - 1, j, v);
      }
  }

  // ---- every turn keeps the queue good ----------------------------------------------

  ghost predicate Next(p: Pack, q: Queue, e: nat) {
    Good(p, q) && q.todo != [] && q.todo[0] == e && e < |p.heads|
  }

  lemma OnceTail(s: seq<nat>)
    requires Once(s) && s != []
    ensures Once(s[1..]) && s[0] !in s[1..] && forall x :: x in s <==> x == s[0] || x in s[1..]
  {
    assert s == [s[0]] + s[1..];
    assert forall a :: 0 <= a < |s| - 1 ==> s[1..][a] == s[a + 1];
  }

  lemma OnceConcat(s: seq<nat>, t: seq<nat>)
    requires Once(s) && Once(t) && forall x :: x in s ==> x !in t
    ensures Once(s + t) && forall x :: x in s + t <==> x in s || x in t
  {
    assert forall a :: 0 <= a < |s| ==> s[a] in s;
    assert forall a :: 0 <= a < |t| ==> t[a] in t;
  }

  lemma EmitKnown(p: Pack, q: Queue, e: nat, o: Obj)
    requires Next(p, q, e) && Walk(p, q.known, e) == Ready(o)
    ensures KnownOk(p, Emit(p, q, e, o).known) && Listed(p, Emit(p, q, e, o).known)
  {
    WalkSound(p, q.known, e);
    WalkRoot(p, q.known, e);
  }

  lemma EmitQueued(p: Pack, q: Queue, e: nat, o: Obj)
    requires Wf(p) && Queued(p, q) && Waiting(p, q) && q.todo != [] && q.todo[0] == e
    ensures Queued(p, Emit(p, q, e, o))
  {
    var ws := Parked(q.pending, p.hash(o));
    OnceTail(q.todo);
    OnceConcat(q.todo[1..], ws);
  }

  lemma EmitWaiting(p: Pack, q: Queue, e: nat, o: Obj)
    requires Wf(p) && Queued(p, q) && Waiting(p, q) && q.todo != [] && q.todo[0] == e
    ensures Waiting(p, Emit(p, q, e, o))
  {
    var q', ws := Emit(p, q, e, o), Parked(q.pending, p.hash(o));
    OnceTail(q.todo);
    OnceConcat(q.todo[1..], ws);
    forall id, x | id in q'.pending && x in q'.pending[id] ensures x !in q'.todo {
      assert id in q.pending && x in q.pending[id];
    }
  }

  lemma EmitAccounted(p: Pack, q: Queue, e: nat, o: Obj)
    requires Wf(p) && Accounted(p, q) && q.todo != [] && q.todo[0] == e
    ensures Accounted(p, Emit(p, q, e, o))
  {
    var q' := Emit(p, q, e, o);
    forall x: nat | x < |p.heads| && x !in q'.known.done
      ensures x in q'.todo || (Root(p, x).RefDelta? && x in Parked(q'.pending, Root(p, x).id))
    {
      if x in q.todo { assert x in q.todo[1..]; }
    }
  }

  lemma EmitRows(p: Pack, done: map<nat, Obj>, rows: seq<Row>, e: nat, o: Obj)
    requires RowsMatch(p, done, rows) && e !in done
    ensures RowsMatch(p, done[e := o], rows + [Row(e, p.hash(o))])
  {
  }

  lemma EmitBases(p: Pack, rows: seq<Row>, r: Row)
    requires Wf(p) && BasesFirst(p, rows) && r.idx < |p.heads|
    requires var root := Root(p, r.idx);
      root.RefDelta? ==> root.id in p.externals || exists b :: 0 <= b < |rows| && rows[b].sha == root.id
    ensures BasesFirst(p, rows + [r])
  {
    var rows', k := rows + [r], |rows|;
    forall a | 0 <= a < k ensures BaseFirst(p, rows', a) {
      RowsGrow(p, rows, r, a);
    }
    var root := Root(p, r.idx);
    if root.RefDelta? && root.id !in p.externals {
      var b :| 0 <= b < k && rows[b].sha == root.id;
      assert rows'[b].sha == root.id;
    }
  }

  lemma RowKept(rows: seq<Row>, r: Row, e: nat)
    requires HasRow(rows, e) || r.idx == e
    ensures HasRow(rows + [r], e)
  {
    if r.idx == e {
      assert (rows + [r])[|rows|].idx == e;
    } else {
      var a :| 0 <= a < |rows| && rows[a].idx == e;
      assert (rows + [r])[a].idx == e;
    }
  }

  lemma EmitEmitted(p: Pack, q: Queue, e: nat, o: Obj, j: nat)
    requires Wf(p) && Emitted(p, q) && q.todo != [] && e < |p.heads| && e !in q.known.done
    requires var root := Root(p, e); root.RefDelta? && root.id !in p.externals ==>
      j in q.known.done && p.hash(q.known.done[j]) == root.id
    ensures Emitted(p, Emit(p, q, e, o))
  {
    var r, root := Row(e, p.hash(o)), Root(p, e);
    if root.RefDelta? && root.id !in p.externals {
      assert HasRow(q.rows, j);
    }
    EmitRows(p, q.known.done, q.rows, e, o);
    EmitBases(p, q.rows, r);
    forall x | x in q.known.done[e := o] ensures HasRow(q.rows + [r], x) {
      RowKept(q.rows, r, x);
    }
  }

  lemma RowsGrow(p: Pack, rows: seq<Row>, r: Row, a: nat)
    requires Wf(p) && a < |rows| && rows[a].idx < |p.heads| && BaseFirst(p, rows, a)
    ensures BaseFirst(p, rows + [r], a)
  {
    var root := Root(p, rows[a].idx);
    if root.RefDelta? && root.id !in p.externals {
      var b :| 0 <= b < a && rows[b].sha == root.id;
      assert (rows + [r])[b].sha == root.id;
    }
  }

  lemma ParkWaiting(p: Pack, q: Queue, e: nat, id: Sha)
    requires Wf(p) && Queued(p, q) && Waiting(p, q) && q.todo != [] && q.todo[0] == e && e < |p.heads|
    requires Root(p, e) == RefDelta(id) && !Found(p, q.known, id)
    ensures Queued(p, Park(q, e, id)) && Waiting(p, Park(q, e, id))
  {
    OnceTail(q.todo);
    OnceConcat(Parked(q.pending, id), [e]);
  }

  lemma ParkAccounted(p: Pack, q: Queue, e: nat, id: Sha)
    requires Wf(p) && Accounted(p, q) && q.todo != [] && q.todo[0] == e && e < |p.heads| && Root(p, e) == RefDelta(id)
    ensures Accounted(p, Park(q, e, id))
  {
    var q' := Park(q, e, id);
    forall x: nat | x < |p.heads| && x !in q'.known.done
      ensures x in q'.todo || (Root(p, x).RefDelta? && x in Parked(q'.pending, Root(p, x).id))
    {
      if x in q.todo && x != e { assert x in q.todo[1..]; }
    }
  }

  /** Every turn keeps the queue good, and there is a next turn unless a chain is broken. */
  lemma TurnKeeps(p: Pack, q: Queue, q': Queue)
    requires Good(p, q) && Turn(p, q, q')
    ensures Good(p, q')
  {
    var e := q.todo[0];
    match Walk(p, q.known, e)
    case Ready(o) =>
      EmitKnown(p, q, e, o);
      EmitQueued(p, q, e, o);
      EmitWaiting(p, q, e, o);
      EmitAccounted(p, q, e, o);
      WalkRoot(p, q.known, e);
      var root := Root(p, e);
      EmitEmitted(p, q, e, o, if root.RefDelta? && root.id in q.known.byId then q.known.byId[root.id] else 0);
    case Await(id) =>
      WalkRoot(p, q.known, e);
      ParkWaiting(p, q, e, id);
      ParkAccounted(p, q, e, id);
  }

  // ---- the loop ---------------------------------------------------------------------

  datatype Outcome = Rows(rows: seq<Row>) | MissingBase(id: Sha) | BadDelta

  ghost predicate TurnAt(p: Pack, qs: seq<Queue>, i: int)
    requires Wf(p)
  {
    0 <= i < |qs| - 1 && Turn(p, qs[i], qs[i + 1])
  }

  /** The turns the loop took. */
  ghost predicate Run(p: Pack, qs: seq<Queue>)
    requires Wf(p)
  {
    && qs != [] && qs[0] == Start(p)
    && forall i {:trigger TurnAt(p, qs, i)} :: 0 <= i < |qs| - 1 ==> TurnAt(p, qs, i)
  }

  lemma StartGood(p: Pack)
    requires Wf(p)
    ensures Good(p, Start(p))
  {
    forall e: nat | e < |p.heads| ensures e in Start(p).todo {
      assert Start(p).todo[e] == e;
    }
  }

  lemma RunSnoc(p: Pack, qs: seq<Queue>, q: Queue)
    requires Wf(p) && Run(p, qs) && Turn(p, qs[|qs| - 1], q)
    ensures Run(p, qs + [q])
  {
    var all := qs + [q];
    forall i | 0 <= i < |all| - 1 ensures TurnAt(p, all, i) {
      assert i < |qs| - 1 ==> TurnAt(p, qs, i);
    }
  }

  lemma {:induction false} RunGood(p: Pack, qs: seq<Queue>, i: nat)
    requires Wf(p) && Run(p, qs) && i < |qs|
    ensures Good(p, qs[i])
  {
    if i == 0 {
      StartGood(p);
    } else {
      RunGood(p, qs, i - 1);
      assert TurnAt(p, qs, i - 1);
      TurnKeeps(p, qs[i - 1], qs[i]);
    }
  }

  ghost predicate Intact(p: Pack)
    requires Wf(p)
  {
    forall e: nat :: e < |p.heads| ==> !Root(p, e).OfsDelta?
  }

  /** An entry whose offset chain is broken is nothing. */
  lemma {:induction false} BrokenDerives(p: Pack, n: nat, e: nat, o: Obj)
    requires Wf(p) && e < |p.heads| && Root(p, e).OfsDelta?
    ensures !Derives(p, n, e, o)
    decreases e
  {
    if Derives(p, n, e, o) {
      var b := p.heads[e].base.value;
      var v :| Derives(p, n - 1, b, v) && o == p.patch(e, v);
      BrokenDerives(p, n - 1, b, v);
    }
  }

  lemma BrokenUnresolvable(p: Pack)
    requires Wf(p) && !Intact(p)
    ensures exists e: nat :: e < |p.heads| && !Resolvable(p, e)
  {
    hide Root;
    var e: nat :| e < |p.heads| && Root(p, e).OfsDelta?;
    if Resolvable(p, e) {
      var o :| Is(p, e, o);
      var n: nat :| Derives(p, n, e, o);
      BrokenDerives(p, n, e, o);
    }
  }

  /** What the result says about the pack. */
  ghost predicate Answers(p: Pack, q: Queue, r: Outcome)
    requires Wf(p)
  {
    match r
    case BadDelta => !Intact(p) && exists e: nat :: e < |p.heads| && !Resolvable(p, e)
    case Rows(rows) =>
      && Intact(p) && rows == q.rows
      && (forall e: nat :: e < |p.heads| ==> HasRow(rows, e) && Resolvable(p, e))
    case MissingBase(id) =>
      && Intact(p) && id !in p.externals && (forall e, o :: Is(p, e, o) ==> p.hash(o) != id)
      && (forall e: nat :: e < |p.heads| ==> (HasRow(q.rows, e) <==> Resolvable(p, e)))
      && (exists e: nat :: e < |p.heads| && !Resolvable(p, e))
  }

  ghost predicate Names(p: Pack, r: Row, o: Obj) {
    Is(p, r.idx, o) && r.sha == p.hash(o)
  }

  ghost predicate Named(p: Pack, r: Row) {
    exists o :: Names(p, r, o)
  }

  /** A row names the object its entry is. */
  ghost predicate Faithful(p: Pack, rows: seq<Row>) {
    forall a :: 0 <= a < |rows| ==> Named(p, rows[a])
  }

  lemma DoneIsResolvable(p: Pack, q: Queue, e: nat)
    requires Collisionless(p) && Good(p, q) && q.todo == []
    ensures e in q.known.done <==> HasRow(q.rows, e)
    ensures e in q.known.done <==> Resolvable(p, e)
  {
    if Resolvable(p, e) {
      var o :| Is(p, e, o);
      var n: nat :| Derives(p, n, e, o);
      Exhausted(p, q, n, e, o);
    }
  }

  lemma ParkedIs(p: Pack, q: Queue, id: Sha)
    requires Wf(p) && Waiting(p, q) && id in q.pending
    ensures q.pending[id] != []
    ensures var x := q.pending[id][0]; x < |p.heads| && Root(p, x) == RefDelta(id) && x !in q.known.done
  {
    assert q.pending[id][0] in q.pending[id];
  }

  lemma NobodyIs(p: Pack, q: Queue, id: Sha, e: nat, o: Obj)
    requires Collisionless(p) && Good(p, q) && q.todo == [] && id in q.pending && Is(p, e, o)
    ensures p.hash(o) != id
  {
    var n: nat :| Derives(p, n, e, o);
    Exhausted(p, q, n, e, o);
    ParkedIs(p, q, id);
    RootAsks(p, q.pending[id][0]);
  }

  lemma {:induction false} RootAsks(p: Pack, x: nat)
    requires Wf(p) && x < |p.heads| && Root(p, x).RefDelta?
    ensures AsksById(p)
  {
    if p.heads[x].OfsDelta? { RootAsks(p, p.heads[x].base.value); }
  }

  lemma Answered(p: Pack, q: Queue, r: Outcome)
    requires Collisionless(p) && Good(p, q) && q.todo == []
    requires if q.pending == map[] then r == Rows(q.rows) else r.MissingBase? && r.id in q.pending
    ensures Answers(p, q, r)
  {
    assert Intact(p);
    forall e: nat | e < |p.heads| ensures e in q.known.done <==> HasRow(q.rows, e)
      ensures e in q.known.done <==> Resolvable(p, e)
    {
      DoneIsResolvable(p, q, e);
    }
    if q.pending != map[] {
      forall e, o | Is(p, e, o) ensures p.hash(o) != r.id {
        NobodyIs(p, q, r.id, e, o);
      }
      ParkedIs(p, q, r.id);
    }
  }

  /** One entry: resolved and emitted, waking its waiters, or parked. */
  method OneEntry(p: Pack, q: Queue) returns (q': Queue, bad: bool)
    requires Good(p, q) && q.todo != []
    ensures bad ==> !Intact(p)
    ensures !bad ==> Turn(p, q, q') && Good(p, q')
    ensures bad || (q'.known.done.Keys == q.known.done.Keys && q'.todo == q.todo[1..])
      || (q.todo[0] !in q.known.done && q'.known.done.Keys == q.known.done.Keys + {q.todo[0]})
  {
    var at := q.todo[0];
    assert at in q.todo;
    bad := false;
    match Walk(p, q.known, at) {
      case Bad =>
        WalkRoot(p, q.known, at);
        return q, true;
      case Ready(o) =>
        q' := Emit(p, q, at, o);
      case Await(base) =>
        q' := Park(q, at, base);
    }
    TurnKeeps(p, q, q');
  }

  ghost function Left(p: Pack, q: Queue): set<nat> {
    set e: nat | e < |p.heads| && e !in q.known.done
  }

  lemma Shrinks(p: Pack, q: Queue, q': Queue, e: nat)
    requires e < |p.heads| && e !in q.known.done && q'.known.done.Keys == q.known.done.Keys + {e}
    ensures |Left(p, q')| < |Left(p, q)|
  {
    assert Left(p, q) == Left(p, q') + {e};
  }

  /** The loop: until the queue is empty or a chain is broken. */
  method Drain(p: Pack) returns (q: Queue, bad: bool, ghost qs: seq<Queue>)
    requires Wf(p)
    ensures Run(p, qs) && Good(p, q) && qs[|qs| - 1] == q
    ensures if bad then !Intact(p) else q.todo == []
  {
    q, bad := Start(p), false;
    qs := [q];
    StartGood(p);
    while q.todo != []
      invariant Run(p, qs) && Good(p, q) && qs[|qs| - 1] == q && !bad
      decreases |Left(p, q)|, |q.todo|
    {
      var q';
      q', bad := OneEntry(p, q);
      if bad { return; }
      RunSnoc(p, qs, q');
      qs := qs + [q'];
      assert q.todo[0] in q.todo;
      if q.todo[0] in q'.known.done {
        Shrinks(p, q, q', q.todo[0]);
      } else {
        assert Left(p, q') == Left(p, q);
      }
      q := q';
    }
  }

  lemma Complete(p: Pack, q: Queue)
    requires Good(p, q) && Answers(p, q, Rows(q.rows))
    ensures |q.rows| == |p.heads| && BasesFirst(p, q.rows) && Faithful(p, q.rows)
  {
    RowCount(q.rows, |p.heads|);
    forall a | 0 <= a < |q.rows| ensures Named(p, q.rows[a]) {
      assert Names(p, q.rows[a], q.known.done[q.rows[a].idx]);
    }
  }

  /** `resolve_and_normalize`: it stops, emits each entry at most once and after the object
      its root names, and succeeds exactly when every entry is resolvable. */
  method Resolve(p: Pack) returns (r: Outcome, ghost qs: seq<Queue>)
    requires Wf(p) && Collisionless(p)
    ensures Run(p, qs) && Good(p, qs[|qs| - 1]) && Answers(p, qs[|qs| - 1], r)
    ensures r.Rows? ==> |r.rows| == |p.heads| && BasesFirst(p, r.rows) && Faithful(p, r.rows)
  {
    var q, bad;
    q, bad, qs := Drain(p);
    if bad {
      BrokenUnresolvable(p);
      return BadDelta, qs;
    }
    if q.pending != map[] {
      var id :| id in q.pending;
      r := MissingBase(id);
    } else {
      r := Rows(q.rows);
    }
    Answered(p, q, r);
    if r.Rows? { Complete(p, q); }
  }

  /** A list of rows, one for each entry, is as long as the pack. */
  lemma {:induction false} RowCount(rows: seq<Row>, n: nat)
    requires forall a, b :: 0 <= a < b < |rows| ==> rows[a].idx != rows[b].idx
    requires forall a :: 0 <= a < |rows| ==> rows[a].idx < n
    requires forall e: nat :: e < n ==> HasRow(rows, e)
    ensures |rows| == n
    decreases n
  {
    if rows == [] {
      assert !HasRow(rows, 0);
    } else {
      assert rows[0].idx < n;
      assert HasRow(rows, n - 1);
      var c :| 0 <= c < |rows| && rows[c].idx == n - 1;
      var rest := rows[..c] + rows[c + 1..];
      forall e: nat | e < n - 1 ensures HasRow(rest, e) {
        assert HasRow(rows, e);
        var a :| 0 <= a < |rows| && rows[a].idx == e;
        assert rest[if a < c then a else a - 1].idx == e;
      }
      forall a | 0 <= a < |rest| ensures rest[a].idx < n - 1 {
        assert rest[a] == rows[if a < c then a else a + 1];
      }
      RowCount(rest, n - 1);
    }
  }
}
