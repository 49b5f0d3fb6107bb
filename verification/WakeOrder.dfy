/** The order of emission of an offset delta and its base: the base is usually, but not
    always, first, and this is exactly when. */
module WakeOrder {
  import opened Repository
  import opened WakeQueue

  /** Turn t of the first pass tries entry t; woken entries queue up behind. */
  ghost predicate Pass(p: Pack, q: Queue, t: nat) {
    && t <= |p.heads| && |q.todo| >= |p.heads| - t
    && (forall j :: 0 <= j < |p.heads| - t ==> q.todo[j] == t + j)
  }

  lemma {:induction false} FirstPass(p: Pack, qs: seq<Queue>, t: nat)
    requires Wf(p) && Run(p, qs) && t < |qs| && t <= |p.heads|
    ensures Pass(p, qs[t], t)
  {
    if t > 0 {
      FirstPass(p, qs, t - 1);
      var q, q' := qs[t - 1], qs[t];
      assert TurnAt(p, qs, t - 1);
      assert forall j :: 0 <= j < |p.heads| - t ==> q'.todo[j] == q.todo[j + 1];
    }
  }

  lemma {:induction false} RowsGrowing(p: Pack, qs: seq<Queue>, i: nat, j: nat)
    requires Wf(p) && Run(p, qs) && i <= j < |qs|
    ensures qs[i].rows <= qs[j].rows
    decreases j
  {
    if i < j {
      RowsGrowing(p, qs, i, j - 1);
      assert TurnAt(p, qs, j - 1);
    }
  }

  lemma TurnDone(p: Pack, q: Queue, q': Queue, k: nat)
    requires Wf(p) && Turn(p, q, q') && Queued(p, q) && q.todo[0] == k
    ensures k in q'.known.done <==> Walk(p, q.known, k).Ready?
    ensures forall b :: b != k ==> (b in q'.known.done <==> b in q.known.done)
  {
    assert k in q.todo;
  }

  /** In the first pass an entry is emitted at its own turn or not at all. */
  lemma {:induction false} OwnTurn(p: Pack, qs: seq<Queue>, b: nat, t: nat)
    requires Wf(p) && Run(p, qs) && b < t < |qs| && t <= |p.heads|
    ensures KnownOk(p, qs[b].known)
    ensures b in qs[t].known.done <==> Walk(p, qs[b].known, b).Ready?
    decreases t
  {
    hide Turn, Walk, Queued, KnownOk, Wf;
    RunQueued(p, qs, b);
    RunQueued(p, qs, t - 1);
    assert TurnAt(p, qs, t - 1);
    TurnDone(p, qs[t - 1], qs[t], t - 1);
    if b < t - 1 { OwnTurn(p, qs, b, t - 1); }
  }

  lemma RunQueued(p: Pack, qs: seq<Queue>, t: nat)
    requires Wf(p) && Run(p, qs) && t < |qs| && t < |p.heads|
    ensures KnownOk(p, qs[t].known) && Queued(p, qs[t]) && qs[t].todo != [] && qs[t].todo[0] == t
    ensures forall j: nat :: t <= j < |p.heads| ==> j !in qs[t].known.done
  {
    hide Turn, Walk, KnownOk, Wf, Run, Waiting, Accounted, Listed, Emitted;
    RunGood(p, qs, t);
    FirstPass(p, qs, t);
    forall j: nat | t <= j < |p.heads| ensures j !in qs[t].known.done {
      assert qs[t].todo[j - t] == j;
    }
  }

  // ---- which entries are early ----

  /** Entry j is an object with this id. */
  ghost predicate Names(p: Pack, j: nat, id: Sha) {
    exists o :: Is(p, j, o) && p.hash(o) == id
  }

  /** Entry i can be resolved in file order: its offset chain ends in a full entry, in an
      external object, or in an entry before i that is early itself. */
  ghost predicate Early(p: Pack, i: nat)
    requires i < |p.heads| && Wf(p)
    decreases i
  {
    match Root(p, i)
    case Full => true
    case OfsDelta(_) => false
    case RefDelta(id) => id in p.externals || exists j: nat :: j < i && Early(p, j) && Names(p, j, id)
  }

  /** It is emitted at its own turn of the first pass exactly then. */
  lemma {:induction false} ReadyIffEarly(p: Pack, qs: seq<Queue>, i: nat)
    requires Wf(p) && Collisionless(p) && Run(p, qs) && i < |p.heads| < |qs|
    ensures KnownOk(p, qs[i].known) && (Walk(p, qs[i].known, i).Ready? <==> Early(p, i))
    decreases i
  {
    hide Turn, Walk, Is, Collisionless, Run;
    RunQueued(p, qs, i);
    WalkRoot(p, qs[i].known, i);
    if Root(p, i).RefDelta? { FoundIffEarly(p, qs, i, Root(p, i).id); }
  }

  lemma {:induction false} FoundIffEarly(p: Pack, qs: seq<Queue>, i: nat, id: Sha)
    requires Wf(p) && Collisionless(p) && Run(p, qs) && i < |p.heads| < |qs| && Root(p, i) == RefDelta(id)
    ensures id in qs[i].known.byId <==> exists j: nat :: j < i && Early(p, j) && Names(p, j, id)
    decreases i, 0
  {
    hide Turn, Walk, Is, Collisionless, Run, Early, Root;
    var k := qs[i].known;
    RunQueued(p, qs, i);
    if id in k.byId {
      var j := k.byId[id];
      OwnTurn(p, qs, j, i);
      ReadyIffEarly(p, qs, j);
      assert Names(p, j, id);
    }
    if j: nat :| j < i && Early(p, j) && Names(p, j, id) {
      OwnTurn(p, qs, j, i);
      ReadyIffEarly(p, qs, j);
      RootAsks(p, i);
      NamedIsListed(p, qs, i, j, id);
    }
  }

  lemma NamedIsListed(p: Pack, qs: seq<Queue>, i: nat, j: nat, id: Sha)
    requires Wf(p) && Collisionless(p) && Run(p, qs) && i < |qs| && j in qs[i].known.done && Names(p, j, id)
    requires AsksById(p)
    ensures id in qs[i].known.byId
  {
    hide Turn, Walk, Run, Early, Root, Derives, Collisionless;
    RunGood(p, qs, i);
    var o :| Is(p, j, o) && p.hash(o) == id;
    var n: nat :| Derives(p, n, j, o);
    var m: nat :| Derives(p, m, j, qs[i].known.done[j]);
    Unique(p, n, m, j, o, qs[i].known.done[j]);
  }

  /** `a` stands before `b` in s. */
  ghost predicate InOrder(s: seq<nat>, a: nat, b: nat) {
    exists i, j :: 0 <= i < j < |s| && s[i] == a && s[j] == b
  }

  lemma OrderAppend(s: seq<nat>, t: seq<nat>, a: nat, b: nat)
    requires InOrder(s, a, b) || InOrder(t, a, b) || (a in s && b in t)
    ensures InOrder(s + t, a, b)
  {
    if InOrder(s, a, b) {
      var i, j :| 0 <= i < j < |s| && s[i] == a && s[j] == b;
      assert (s + t)[i] == a && (s + t)[j] == b;
    } else if InOrder(t, a, b) {
      var i, j :| 0 <= i < j < |t| && t[i] == a && t[j] == b;
      assert (s + t)[|s| + i] == a && (s + t)[|s| + j] == b;
    } else {
      var i :| 0 <= i < |s| && s[i] == a;
      var j :| 0 <= j < |t| && t[j] == b;
      assert (s + t)[i] == a && (s + t)[|s| + j] == b;
    }
  }

  lemma OrderTail(s: seq<nat>, a: nat, b: nat)
    requires InOrder(s, a, b) && s[0] != a
    ensures InOrder(s[1..], a, b)
  {
    var i, j :| 0 <= i < j < |s| && s[i] == a && s[j] == b;
    assert s[1..][i - 1] == a && s[1..][j - 1] == b;
  }

  ghost predicate RowBefore(rows: seq<Row>, a: nat, b: nat) {
    exists i :: 0 <= i < |rows| && rows[i].idx == a && forall j :: 0 <= j <= i ==> rows[j].idx != b
  }

  /** The base will come first: it has, or it waits in front of the delta. */
  ghost predicate WillPrecede(p: Pack, q: Queue, b: nat, e: nat, id: Sha) {
    || RowBefore(q.rows, b, e)
    || (b !in q.known.done && e !in q.known.done
      && (InOrder(Parked(q.pending, id), b, e) || (Found(p, q.known, id) && InOrder(q.todo, b, e))))
  }

  lemma RowBeforeKept(rows: seq<Row>, rows': seq<Row>, a: nat, b: nat)
    requires RowBefore(rows, a, b) && rows <= rows'
    ensures RowBefore(rows', a, b)
  {
    var i :| 0 <= i < |rows| && rows[i].idx == a && forall j :: 0 <= j <= i ==> rows[j].idx != b;
    assert rows'[i].idx == a && forall j :: 0 <= j <= i ==> rows'[j].idx != b;
  }

  lemma ParkedKept(p: Pack, q: Queue, q': Queue, b: nat, e: nat, id: Sha)
    requires Good(p, q) && Turn(p, q, q') && b < |p.heads| && e < |p.heads|
    requires Root(p, b) == RefDelta(id) && b !in q.known.done && e !in q.known.done
    requires InOrder(Parked(q.pending, id), b, e)
    ensures WillPrecede(p, q', b, e, id)
  {
    var h := q.todo[0];
    assert h in q.todo && b in q.pending[id] && e in q.pending[id];
    match Walk(p, q.known, h)
    case Ready(o) =>
      if p.hash(o) == id {
        OrderAppend(q.todo[1..], q.pending[id], b, e);
        RootAsks(p, b);
      }
    case Await(id') =>
      if id' == id { OrderAppend(q.pending[id], [h], b, e); }
  }

  lemma TodoKept(p: Pack, q: Queue, q': Queue, b: nat, e: nat, id: Sha)
    requires Good(p, q) && Turn(p, q, q') && b < |p.heads|
    requires Root(p, b) == RefDelta(id) && b !in q.known.done && e !in q.known.done && b != e
    requires Found(p, q.known, id) && InOrder(q.todo, b, e)
    ensures WillPrecede(p, q', b, e, id)
  {
    hide Accounted, Listed, BasesFirst;
    var h := q.todo[0];
    WalkRoot(p, q.known, h);
    if h == b {
      assert forall j :: 0 <= j < |q.rows| ==> q.rows[j].idx in q.known.done;
      assert q'.rows[|q.rows|].idx == b;
    } else {
      OrderTail(q.todo, b, e);
      HeadNotSecond(q.todo, b, e);
      if Walk(p, q.known, h).Ready? {
        OrderAppend(q.todo[1..], Parked(q.pending, p.hash(Walk(p, q.known, h).obj)), b, e);
      }
    }
  }

  lemma PrecedeKept(p: Pack, q: Queue, q': Queue, b: nat, e: nat, id: Sha)
    requires Good(p, q) && Turn(p, q, q') && b < |p.heads| && e < |p.heads| && b != e
    requires Root(p, b) == RefDelta(id) && Root(p, e) == RefDelta(id) && WillPrecede(p, q, b, e, id)
    ensures WillPrecede(p, q', b, e, id)
  {
    if RowBefore(q.rows, b, e) {
      RowBeforeKept(q.rows, q'.rows, b, e);
    } else if InOrder(Parked(q.pending, id), b, e) {
      ParkedKept(p, q, q', b, e, id);
    } else {
      TodoKept(p, q, q', b, e, id);
    }
  }

  lemma HeadNotSecond(s: seq<nat>, a: nat, b: nat)
    requires Once(s) && InOrder(s, a, b)
    ensures s[0] != b
  {
  }

  /** An entry tried before and queued again has had its root found. */
  ghost predicate Retried(p: Pack, q: Queue, t: nat)
    requires Wf(p)
  {
    forall x :: x in q.todo && x < t && x < |p.heads| ==> Root(p, x).RefDelta? && Found(p, q.known, Root(p, x).id)
  }

  lemma {:induction false} PassRetried(p: Pack, qs: seq<Queue>, t: nat)
    requires Wf(p) && Run(p, qs) && t < |qs| && t <= |p.heads|
    ensures Retried(p, qs[t], t)
  {
    hide Turn, Good, Retried, Wf, KnownOk, Queued;
    if t == 0 {
      RetriedStart(p, qs[0]);
    } else {
      PassRetried(p, qs, t - 1);
      RunGood(p, qs, t - 1);
      RunQueued(p, qs, t - 1);
      assert TurnAt(p, qs, t - 1);
      RetriedTurn(p, qs[t - 1], qs[t], t);
    }
  }

  lemma RetriedStart(p: Pack, q: Queue)
    requires Wf(p)
    ensures Retried(p, q, 0)
  {
  }

  lemma RetriedTurn(p: Pack, q: Queue, q': Queue, t: nat)
    requires Good(p, q) && Turn(p, q, q') && t > 0 && q.todo[0] == t - 1 && Retried(p, q, t - 1)
    ensures Retried(p, q', t)
  {
    hide Emitted, Accounted;
    OnceTail(q.todo);
    forall x | x in q'.todo && x < t && x < |p.heads|
      ensures Root(p, x).RefDelta? && Found(p, q'.known, Root(p, x).id) {
      if x !in q.todo {
        assert Walk(p, q.known, t - 1).Ready?;
        var id := p.hash(Walk(p, q.known, t - 1).obj);
        assert x in q.pending[id];
        RootAsks(p, x);
      }
    }
  }

  /** Parked at its own turn, the delta stands behind its base. */
  lemma ParkedBehind(p: Pack, qs: seq<Queue>, b: nat, e: nat, id: Sha)
    requires Wf(p) && Run(p, qs) && b < e < |p.heads| && e + 1 < |qs| && Root(p, b) == RefDelta(id) == Root(p, e)
    requires KnownOk(p, qs[e].known) && Walk(p, qs[e].known, e) == Await(id)
    ensures WillPrecede(p, qs[e + 1], b, e, id)
  {
    var q, q' := qs[e], qs[e + 1];
    RunGood(p, qs, e);
    FirstPass(p, qs, e);
    PassRetried(p, qs, e);
    assert TurnAt(p, qs, e) && q.todo[0] == e;
    WalkRoot(p, q.known, e);
    assert e in q.todo;
    assert b !in q.todo && b !in q.known.done;
    assert b in Parked(q.pending, id);
    OrderAppend(Parked(q.pending, id), [e], b, e);
  }

  lemma {:induction false} PrecedeForever(p: Pack, qs: seq<Queue>, i: nat, j: nat, b: nat, e: nat, id: Sha)
    requires Wf(p) && Run(p, qs) && i <= j < |qs| && b < |p.heads| && e < |p.heads| && b != e
    requires Root(p, b) == RefDelta(id) == Root(p, e) && WillPrecede(p, qs[i], b, e, id)
    ensures WillPrecede(p, qs[j], b, e, id)
    decreases j
  {
    hide Turn, Good, WillPrecede, Wf, Root;
    if i < j {
      PrecedeForever(p, qs, i, j - 1, b, e, id);
      RunGood(p, qs, j - 1);
      assert TurnAt(p, qs, j - 1);
      PrecedeKept(p, qs[j - 1], qs[j], b, e, id);
    }
  }

  /** `b` was emitted by state k and `e` was not: `b`'s row is first. */
  lemma FirstOut(p: Pack, qs: seq<Queue>, k: nat, b: nat, e: nat)
    requires Wf(p) && Run(p, qs) && k < |qs| && b in qs[k].known.done && e !in qs[k].known.done
    ensures RowBefore(qs[|qs| - 1].rows, b, e)
  {
    RunGood(p, qs, k);
    RowsGrowing(p, qs, k, |qs| - 1);
    assert HasRow(qs[k].rows, b);
    var i :| 0 <= i < |qs[k].rows| && qs[k].rows[i].idx == b;
    assert forall j :: 0 <= j <= i ==> qs[k].rows[j].idx in qs[k].known.done;
    assert RowBefore(qs[k].rows, b, e);
    RowBeforeKept(qs[k].rows, qs[|qs| - 1].rows, b, e);
  }

  lemma OneIsFirst(p: Pack, q: Queue, a: nat, b: nat)
    requires RowBefore(q.rows, b, a) && a != b && RowsMatch(p, q.known.done, q.rows)
    ensures !RowBefore(q.rows, a, b)
  {
    var i :| 0 <= i < |q.rows| && q.rows[i].idx == b && forall j :: 0 <= j <= i ==> q.rows[j].idx != a;
    assert forall k :: 0 <= k < |q.rows| && q.rows[k].idx == a ==> i < k;
  }

  lemma BaseResolved(p: Pack, qs: seq<Queue>, b: nat, e: nat)
    requires Wf(p) && Run(p, qs) && b < e < |p.heads| < |qs| && KnownOk(p, qs[b].known)
    requires Walk(p, qs[b].known, b).Ready?
    ensures RowBefore(qs[|qs| - 1].rows, b, e)
  {
    OwnTurn(p, qs, b, e);
    FirstPass(p, qs, e);
    RunGood(p, qs, e);
    assert e in qs[e].todo by { assert qs[e].todo[0] == e; }
    FirstOut(p, qs, e, b, e);
  }

  lemma BothParked(p: Pack, qs: seq<Queue>, b: nat, e: nat)
    requires Wf(p) && Run(p, qs) && b < e < |p.heads| < |qs| && Root(p, b) == Root(p, e)
    requires KnownOk(p, qs[e].known) && Walk(p, qs[e].known, e).Await? && b in qs[|qs| - 1].known.done
    ensures RowBefore(qs[|qs| - 1].rows, b, e)
  {
    WalkRoot(p, qs[e].known, e);
    var id := Root(p, e).id;
    ParkedBehind(p, qs, b, e, id);
    PrecedeForever(p, qs, e + 1, |qs| - 1, b, e, id);
  }

  lemma DeltaOvertakes(p: Pack, qs: seq<Queue>, b: nat, e: nat)
    requires Wf(p) && Run(p, qs) && b < e < |p.heads| < |qs| && KnownOk(p, qs[b].known) && KnownOk(p, qs[e].known)
    requires !Walk(p, qs[b].known, b).Ready? && Walk(p, qs[e].known, e).Ready?
    ensures !RowBefore(qs[|qs| - 1].rows, b, e)
  {
    OwnTurn(p, qs, b, e + 1);
    OwnTurn(p, qs, e, e + 1);
    FirstOut(p, qs, e + 1, e, b);
    RunGood(p, qs, |qs| - 1);
    OneIsFirst(p, qs[|qs| - 1], b, e);
  }

  /** In a run that emits both, an offset delta's base comes first if and only if the base
      is early or the delta is not. */
  lemma OffsetBaseFirst(p: Pack, qs: seq<Queue>, b: nat, e: nat)
    requires Wf(p) && Collisionless(p) && Run(p, qs) && e < |p.heads| < |qs| && p.heads[e] == OfsDelta(Some(b))
    requires b in qs[|qs| - 1].known.done && e in qs[|qs| - 1].known.done
    ensures RowBefore(qs[|qs| - 1].rows, b, e) <==> Early(p, b) || !Early(p, e)
  {
    hide Early;
    ReadyIffEarly(p, qs, b);
    ReadyIffEarly(p, qs, e);
    TurnsOrder(p, qs, b, e);
  }

  lemma TurnsOrder(p: Pack, qs: seq<Queue>, b: nat, e: nat)
    requires Wf(p) && Run(p, qs) && e < |p.heads| < |qs| && p.heads[e] == OfsDelta(Some(b))
    requires b in qs[|qs| - 1].known.done && e in qs[|qs| - 1].known.done
    requires KnownOk(p, qs[b].known) && KnownOk(p, qs[e].known)
    ensures RowBefore(qs[|qs| - 1].rows, b, e) <==> Walk(p, qs[b].known, b).Ready? || !Walk(p, qs[e].known, e).Ready?
  {
    NotBad(p, qs, e);
    if Walk(p, qs[e].known, e).Await? {
      BothParked(p, qs, b, e);
    } else if Walk(p, qs[b].known, b).Ready? {
      BaseResolved(p, qs, b, e);
    } else {
      DeltaOvertakes(p, qs, b, e);
    }
  }

  lemma NotBad(p: Pack, qs: seq<Queue>, e: nat)
    requires Wf(p) && Run(p, qs) && e < |p.heads| < |qs| && KnownOk(p, qs[e].known)
    ensures !Walk(p, qs[e].known, e).Bad?
  {
    FirstPass(p, qs, e);
    assert TurnAt(p, qs, e);
    assert qs[e].todo[0] == e;
  }

  lemma EmitTurn(p: Pack, q: Queue, q': Queue, o: Obj)
    requires Wf(p) && Turn(p, q, q') && Walk(p, q.known, q.todo[0]) == Ready(o) && AsksById(p)
    ensures q'.todo == q.todo[1..] + Parked(q.pending, p.hash(o)) && q'.rows == q.rows + [Row(q.todo[0], p.hash(o))]
    ensures q'.known.byId == q.known.byId[p.hash(o) := q.todo[0]]
  {
  }

  /** A pack whose offset delta overtakes its base: entry 0 is a delta on the object that
      entry 1 is, entry 2 an offset delta on entry 0. */
  lemma Overtaken(p: Pack, qs: seq<Queue>)
    requires Wf(p) && Run(p, qs) && |qs| == 5 && p.externals == map[]
    requires p.heads == [RefDelta(p.hash(p.full(1))), Full, OfsDelta(Some(0))]
    ensures RowBefore(qs[4].rows, 2, 0) && !RowBefore(qs[4].rows, 0, 2)
  {
    OvertakenTurns(p, qs);
    assert RowBefore(qs[3].rows, 2, 0);
    RowsGrowing(p, qs, 3, 4);
    RowBeforeKept(qs[3].rows, qs[4].rows, 2, 0);
    RunGood(p, qs, 4);
    OneIsFirst(p, qs[4], 0, 2);
  }

  lemma OvertakenTurns(p: Pack, qs: seq<Queue>)
    requires Wf(p) && Run(p, qs) && |qs| == 5 && p.externals == map[]
    requires p.heads == [RefDelta(p.hash(p.full(1))), Full, OfsDelta(Some(0))]
    ensures |qs[3].rows| == 2 && qs[3].rows[0].idx == 1 && qs[3].rows[1].idx == 2
  {
    var id, q0 := p.hash(p.full(1)), qs[0];
    assert AsksById(p) by { assert p.heads[0].RefDelta?; }
    assert TurnAt(p, qs, 0) && Walk(p, q0.known, 0) == Await(id);
    assert q0.todo[1..] == [1, 2] && qs[1].rows == [];
    assert TurnAt(p, qs, 1);
    EmitTurn(p, qs[1], qs[2], p.full(1));
    assert qs[2].todo == [2, 0];
    assert TurnAt(p, qs, 2) && Walk(p, qs[2].known, 0).Ready?;
    EmitTurn(p, qs[2], qs[3], Walk(p, qs[2].known, 2).obj);
  }
}
