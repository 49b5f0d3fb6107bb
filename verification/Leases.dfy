/** The job table: a row is claimed under a fresh token, and every later write of that slice
    is conditional on the row still running under it. */
module Leases {
  import opened Repository

  type Token = string
  type JobKind = string

  datatype RowState = Queued | Running | Dead
  datatype Job = Job(kind: JobKind, runAt: int, attempts: nat, strands: nat, state: RowState, startedAt: int,
                     lease: Option<Token>)

  /** How a slice ends. */
  datatype Outcome = Done | Continue | Reschedule(at: int) | Error

  /** Row ids are never reused. */
  datatype Table = Table(jobs: map<nat, Job>, next: nat)

  const STALE_MS := 60_000
  const MAX_ATTEMPTS := 8
  const MAX_STRANDS := 64
  const PURGE: JobKind := "purge_repo"

  datatype Event =
    | Enqueue(kind: JobKind, runAt: int)
    | Submit(kind: JobKind, runAt: int)
    | Claim(id: nat, token: Token, now: int)
    | Beat(id: nat, token: Token, now: int)
    | Repair(now: int)
    | BootDeleted(now: int)
    | Land(id: nat, token: Token, now: int, out: Outcome)
    | Resurrect(kind: JobKind, now: int)
    | Remove(id: nat)

  /** The lease check. */
  predicate Held(t: Table, id: nat, token: Token) {
    id in t.jobs && t.jobs[id].state.Running? && t.jobs[id].lease == Some(token)
  }

  /** A row of its own, as an import is queued. */
  function Add(t: Table, kind: JobKind, runAt: int): Table {
    Table(t.jobs[t.next := Job(kind, runAt, 0, 0, Queued, 0, None)], t.next + 1)
  }

  /** At most one queued row of a kind. */
  function Insert(t: Table, kind: JobKind, runAt: int): Table {
    if exists id :: id in t.jobs && t.jobs[id].kind == kind && t.jobs[id].state.Queued? then t else Add(t, kind, runAt)
  }

  /** A stale running row: dead after too many strandings, else queued again. */
  function Repaired(j: Job, now: int): Job {
    if j.state.Running? && j.startedAt < now - STALE_MS then
      if j.strands >= MAX_STRANDS then j.(state := RowState.Dead)
      else j.(state := Queued, runAt := now, strands := j.strands + 1, lease := None)
    else j
  }

  /** The boot of a deleted repository queues a stale running purge again, as one more
      attempt; its lease column stays. */
  function Rebooted(j: Job, now: int): Job {
    if j.kind == PURGE && j.state.Running? && j.startedAt < now - STALE_MS then
      j.(state := Queued, runAt := now, attempts := j.attempts + 1)
    else j
  }

  function Min(a: int, b: int): int {
    if a < b then a else b
  }

  function Pow2(n: nat): nat {
    if n == 0 then 1 else 2 * Pow2(n - 1)
  }

  /** Doubling from 30 seconds, at most an hour. */
  function Backoff(attempt: nat): int {
    Min(30_000 * Pow2(Min(attempt, 20)), 3_600_000)
  }

  /** The row after its slice's outcome; None when it is finished. */
  function Landed(j: Job, now: int, out: Outcome): Option<Job> {
    match out
    case Done => None
    case Continue => Some(j.(state := Queued, runAt := now, strands := 0, lease := None))
    case Reschedule(at) => Some(j.(state := Queued, runAt := at, strands := 0, lease := None))
    case Error =>
      var attempt := j.attempts + 1;
      Some(if attempt >= MAX_ATTEMPTS then j.(state := RowState.Dead)
           else j.(state := Queued, attempts := attempt, runAt := now + Backoff(attempt), lease := None))
  }

  function Apply(t: Table, e: Event): Table {
    match e
    case Enqueue(kind, runAt) => Insert(t, kind, runAt)
    case Submit(kind, runAt) => Add(t, kind, runAt)
    case Claim(id, token, now) =>
      if id in t.jobs && t.jobs[id].state.Queued? then
        t.(jobs := t.jobs[id := t.jobs[id].(state := Running, startedAt := now, lease := Some(token))])
      else t
    case Beat(id, token, now) =>
      if Held(t, id, token) then t.(jobs := t.jobs[id := t.jobs[id].(startedAt := now)]) else t
    case Repair(now) => t.(jobs := map id | id in t.jobs :: Repaired(t.jobs[id], now))
    case BootDeleted(now) =>
      var u := t.(jobs := map id | id in t.jobs :: Rebooted(t.jobs[id], now));
      if exists id :: id in u.jobs && u.jobs[id].kind == PURGE && !u.jobs[id].state.Dead? then u
        else Insert(u, PURGE, now)
    case Land(id, token, now, out) =>
      if Held(t, id, token) then
        var row := Landed(t.jobs[id], now, out);
        t.(jobs := if row.Some? then t.jobs[id := row.value] else t.jobs - {id})
      else t
    case Resurrect(kind, now) =>
      Insert(t.(jobs := map id | id in t.jobs && !(t.jobs[id].kind == kind && t.jobs[id].state.Dead?) :: t.jobs[id]),
        kind, now)
    case Remove(id) => t.(jobs := t.jobs - {id})
  }

  /** The table after a history. */
  function After(h: seq<Event>): Table {
    if h == [] then Table(map[], 0) else Apply(After(h[..|h| - 1]), h[|h| - 1])
  }

  lemma AfterNext(h: seq<Event>, i: nat)
    requires i < |h|
    ensures After(h[..i + 1]) == Apply(After(h[..i]), h[i])
  {
    assert h[..i + 1][..i] == h[..i];
  }

  /** Tokens are random: no claim's token is used twice. */
  ghost predicate Fresh(h: seq<Event>) {
    forall i, j :: 0 <= i < j < |h| && h[i].Claim? && h[j].Claim? ==> h[i].token != h[j].token
  }

  /** A claim with this token is among the first n events. */
  ghost predicate Issued(h: seq<Event>, n: nat, token: Token)
    requires n <= |h|
  {
    exists i :: 0 <= i < n && h[i].Claim? && h[i].token == token
  }

  // ---- fencing ----------------------------------------------------------------------

  /** Only its own claim makes a token pass. */
  lemma StepFence(t: Table, e: Event, id: nat, token: Token)
    ensures Held(Apply(t, e), id, token) ==> Held(t, id, token) || (e.Claim? && e.id == id && e.token == token)
  {
  }

  /** A slice that fails the lease check never passes it again, whatever happens. */
  lemma {:induction false} FencedForever(h: seq<Event>, i: nat, j: nat, id: nat, token: Token)
    requires Fresh(h) && i <= j <= |h| && Issued(h, i, token) && !Held(After(h[..i]), id, token)
    ensures !Held(After(h[..j]), id, token)
    decreases j
  {
    hide Apply;
    if i < j {
      FencedForever(h, i, j - 1, id, token);
      AfterNext(h, j - 1);
      StepFence(After(h[..j - 1]), h[j - 1], id, token);
      var a :| 0 <= a < i && h[a].Claim? && h[a].token == token;
      assert h[j - 1].Claim? ==> a == j - 1 || h[j - 1].token != token;
    }
  }

  /** A token that passes was claimed for that row. */
  lemma {:induction false} HolderClaimed(h: seq<Event>, n: nat, id: nat, token: Token)
    requires n <= |h| && Held(After(h[..n]), id, token)
    ensures ClaimedFor(h, n, id, token)
  {
    if n > 0 {
      AfterNext(h, n - 1);
      StepFence(After(h[..n - 1]), h[n - 1], id, token);
      if Held(After(h[..n - 1]), id, token) { HolderClaimed(h, n - 1, id, token); }
    }
  }

  // ---- outcomes ---------------------------------------------------------------------

  /** Event i lands an outcome: its token still held the row. */
  ghost predicate Lands(h: seq<Event>, i: nat)
    requires i < |h|
  {
    h[i].Land? && Held(After(h[..i]), h[i].id, h[i].token)
  }

  ghost predicate ClaimedFor(h: seq<Event>, n: nat, id: nat, token: Token)
    requires n <= |h|
  {
    exists i :: 0 <= i < n && h[i].Claim? && h[i].id == id && h[i].token == token
  }

  lemma OneRow(h: seq<Event>, n: nat, a: nat, b: nat, token: Token)
    requires Fresh(h) && n <= |h| && ClaimedFor(h, n, a, token) && ClaimedFor(h, n, b, token)
    ensures a == b
  {
    var i :| 0 <= i < n && h[i].Claim? && h[i].id == a && h[i].token == token;
    var j :| 0 <= j < n && h[j].Claim? && h[j].id == b && h[j].token == token;
    assert i == j;
  }

  /** An outcome gives the row up. */
  lemma LandReleases(t: Table, id: nat, token: Token, now: int, out: Outcome)
    requires Held(t, id, token)
    ensures !Held(Apply(t, Land(id, token, now, out)), id, token)
  {
  }

  /** A claim lands at most one outcome. */
  lemma LandsOnce(h: seq<Event>, i: nat, j: nat)
    requires Fresh(h) && i <= j < |h| && Lands(h, i) && Lands(h, j) && h[i].token == h[j].token
    ensures i == j
  {
    HolderClaimed(h, i, h[i].id, h[i].token);
    HolderClaimed(h, j, h[j].id, h[j].token);
    if i < j {
      OneRow(h, j, h[i].id, h[j].id, h[i].token);
      AfterNext(h, i);
      LandReleases(After(h[..i]), h[i].id, h[i].token, h[i].now, h[i].out);
      FencedForever(h, i + 1, j, h[i].id, h[i].token);
    }
  }

  // ---- death ------------------------------------------------------------------------

  /** The event lands an error on row id. */
  predicate ErrorOn(t: Table, e: Event, id: nat) {
    e.Land? && e.id == id && e.out.Error? && Held(t, id, e.token)
  }

  /** The event lands a completed slice of row id. */
  predicate CompletedOn(t: Table, e: Event, id: nat) {
    e.Land? && e.id == id && (e.out.Continue? || e.out.Reschedule?) && Held(t, id, e.token)
  }

  /** The event requeues row id as stranded. */
  predicate StrandedOn(t: Table, e: Event, id: nat) {
    e.Repair? && id in t.jobs && t.jobs[id].state.Running? && Apply(t, e).jobs[id].state.Queued?
  }

  /** Errors landed on row id in the first n events. */
  function Errors(h: seq<Event>, n: nat, id: nat): nat
    requires n <= |h|
  {
    if n == 0 then 0
    else Errors(h, n - 1, id) + if ErrorOn(After(h[..n - 1]), h[n - 1], id) then 1 else 0
  }

  /** Strandings of row id since its last completed slice. */
  function Strandings(h: seq<Event>, n: nat, id: nat): nat
    requires n <= |h|
  {
    if n == 0 || CompletedOn(After(h[..n - 1]), h[n - 1], id) then 0
    else Strandings(h, n - 1, id) + if StrandedOn(After(h[..n - 1]), h[n - 1], id) then 1 else 0
  }

  /** The event queues row id again at the boot of a deleted repository. */
  predicate RebootedOn(t: Table, e: Event, id: nat) {
    e.BootDeleted? && id in t.jobs && t.jobs[id].state.Running? && Apply(t, e).jobs[id].state.Queued?
  }

  function Reboots(h: seq<Event>, n: nat, id: nat): nat
    requires n <= |h|
  {
    if n == 0 then 0
    else Reboots(h, n - 1, id) + if RebootedOn(After(h[..n - 1]), h[n - 1], id) then 1 else 0
  }

  /** A row's counters are its history; only a purge is ever rebooted; and a row is dead only
      with 8 attempts or 64 strandings behind it. */
  ghost predicate Counted(t: Table, id: nat, errors: nat, strandings: nat, reboots: nat) {
    && (id >= t.next ==> id !in t.jobs && errors == strandings == reboots == 0)
    && errors <= MAX_ATTEMPTS && strandings <= MAX_STRANDS
    && (id in t.jobs ==>
      var j := t.jobs[id];
      && j.strands == strandings && (j.kind != PURGE ==> reboots == 0)
      && (!j.state.Dead? ==> j.attempts == errors + reboots && errors < MAX_ATTEMPTS)
      && (j.state.Dead? ==> errors + reboots >= MAX_ATTEMPTS || strandings == MAX_STRANDS))
  }

  lemma StepCounted(t: Table, e: Event, id: nat, errors: nat, strandings: nat, reboots: nat)
    requires Counted(t, id, errors, strandings, reboots)
    ensures Counted(Apply(t, e), id, errors + (if ErrorOn(t, e, id) then 1 else 0),
                    if CompletedOn(t, e, id) then 0 else strandings + (if StrandedOn(t, e, id) then 1 else 0),
                    reboots + (if RebootedOn(t, e, id) then 1 else 0))
  {
    match e
    case Land(_, token, now, out) =>
      match out { case Done => case Continue => case Reschedule(at) => case Error => }
    case _ =>
  }

  /** In every history: a row's counters are exact. A live row other than a purge has landed
      fewer than 8 errors, and a dead one has landed 8 or been requeued 64 times without a
      completed slice; a purge's attempts are its errors and its reboots. */
  lemma {:induction false} DeathBound(h: seq<Event>, n: nat, id: nat)
    requires n <= |h|
    ensures Counted(After(h[..n]), id, Errors(h, n, id), Strandings(h, n, id), Reboots(h, n, id))
  {
    hide Counted, Apply;
    if n == 0 {
      NoneCounted(id);
      assert h[..0] == [];
    } else {
      DeathBound(h, n - 1, id);
      AfterNext(h, n - 1);
      StepCounted(After(h[..n - 1]), h[n - 1], id, Errors(h, n - 1, id), Strandings(h, n - 1, id),
        Reboots(h, n - 1, id));
    }
  }

  lemma NoneCounted(id: nat)
    ensures Counted(Table(map[], 0), id, 0, 0, 0)
  {
  }

  /** Nothing revives a dead row. */
  lemma {:induction false} DeadForever(h: seq<Event>, i: nat, j: nat, id: nat)
    requires i <= j <= |h| && id in After(h[..i]).jobs && After(h[..i]).jobs[id].state.Dead?
    requires id in After(h[..j]).jobs
    ensures After(h[..j]).jobs[id].state.Dead?
    decreases j
  {
    hide Apply;
    if i < j {
      AfterNext(h, j - 1);
      DeathBound(h, i, id);
      OldRow(h, i, j - 1, id);
      StepDead(After(h[..j - 1]), h[j - 1], id);
      DeadForever(h, i, j - 1, id);
    }
  }

  lemma StepDead(t: Table, e: Event, id: nat)
    requires id < t.next && id in Apply(t, e).jobs
    ensures id in t.jobs && (t.jobs[id].state.Dead? ==> Apply(t, e).jobs[id].state.Dead?)
  {
  }

  /** Row ids only grow. */
  lemma {:induction false} OldRow(h: seq<Event>, i: nat, j: nat, id: nat)
    requires i <= j <= |h| && id < After(h[..i]).next
    ensures id < After(h[..j]).next
    decreases j
  {
    hide Apply;
    if i < j {
      OldRow(h, i, j - 1, id);
      AfterNext(h, j - 1);
      NextGrows(After(h[..j - 1]), h[j - 1]);
    }
  }

  lemma NextGrows(t: Table, e: Event)
    ensures t.next <= Apply(t, e).next
  {
  }

  // ---- exactly when a row dies ----------------------------------------------------------

  predicate DeadIn(t: Table, id: nat) {
    id in t.jobs && t.jobs[id].state.Dead?
  }

  /** Event n lands an error that, with the errors and reboots before it, makes 8 attempts. */
  predicate FatalError(h: seq<Event>, n: nat, id: nat)
    requires n < |h|
  {
    ErrorOn(After(h[..n]), h[n], id) && Errors(h, n, id) + Reboots(h, n, id) + 1 >= 8
  }

  /** The repair would requeue row id, or give it up. */
  predicate StaleAt(t: Table, e: Event, id: nat) {
    e.Repair? && id in t.jobs && t.jobs[id].state.Running? && t.jobs[id].startedAt < e.now - 60_000
  }

  /** Event n finds the row stale after 64 strandings since its last completed slice. */
  predicate FatalRepair(h: seq<Event>, n: nat, id: nat)
    requires n < |h|
  {
    StaleAt(After(h[..n]), h[n], id) && Strandings(h, n, id) == 64
  }

  predicate Fatal(h: seq<Event>, n: int, id: nat) {
    0 <= n < |h| && (FatalError(h, n, id) || FatalRepair(h, n, id))
  }

  lemma StepKills(t: Table, e: Event, id: nat)
    requires id in t.jobs && id < t.next && !t.jobs[id].state.Dead?
    ensures DeadIn(Apply(t, e), id) <==>
      || (ErrorOn(t, e, id) && t.jobs[id].attempts + 1 >= MAX_ATTEMPTS)
      || (StaleAt(t, e, id) && t.jobs[id].strands >= MAX_STRANDS)
  {
    match e
    case Land(_, token, now, out) =>
      match out { case Done => case Continue => case Reschedule(at) => case Error => }
    case _ =>
  }

  /** An event turns a row dead if and only if it is fatal. */
  lemma Kills(h: seq<Event>, n: nat, id: nat)
    requires n < |h| && id in After(h[..n]).jobs && !After(h[..n]).jobs[id].state.Dead?
    ensures DeadIn(After(h[..n + 1]), id) <==> Fatal(h, n, id)
  {
    hide Apply, ErrorOn, StaleAt;
    DeathBound(h, n, id);
    AfterNext(h, n);
    StepKills(After(h[..n]), h[n], id);
  }

  /** In every history a row is dead if and only if some event was fatal to it. */
  lemma {:induction false} DeadExactly(h: seq<Event>, n: nat, id: nat)
    requires n <= |h| && id in After(h[..n]).jobs
    ensures DeadIn(After(h[..n]), id) <==> exists m :: 0 <= m < n && Fatal(h, m, id)
  {
    hide Apply, Fatal;
    if n > 0 {
      AfterNext(h, n - 1);
      if id in After(h[..n - 1]).jobs {
        DeadExactly(h, n - 1, id);
        DeathBound(h, n - 1, id);
        StepDead(After(h[..n - 1]), h[n - 1], id);
        if !DeadIn(After(h[..n - 1]), id) { Kills(h, n - 1, id); }
      } else {
        NewRow(After(h[..n - 1]), h[n - 1], id);
        forall m | 0 <= m < n ensures !Fatal(h, m, id) { NotFatal(h, m, n, id); }
      }
    }
  }

  lemma NewRow(t: Table, e: Event, id: nat)
    requires id !in t.jobs && id in Apply(t, e).jobs
    ensures !Apply(t, e).jobs[id].state.Dead? && id >= t.next
  {
  }

  lemma NotFatal(h: seq<Event>, m: nat, n: nat, id: nat)
    requires m < n <= |h| && id !in After(h[..n - 1]).jobs && id in After(h[..n]).jobs
    ensures !Fatal(h, m, id)
  {
    hide Apply;
    if Fatal(h, m, id) {
      DeathBound(h, m, id);
      OldRow(h, m, n - 1, id);
      AfterNext(h, n - 1);
      StepDead(After(h[..n - 1]), h[n - 1], id);
    }
  }

  /** So the promise of 8 errors is kept at an error if and only if it is the eighth, or the
      reboots of a purge do not bring the attempts to 8 before. */
  lemma EightErrors(h: seq<Event>, n: nat, id: nat)
    requires n < |h| && ErrorOn(After(h[..n]), h[n], id)
    ensures (DeadIn(After(h[..n + 1]), id) <==> Errors(h, n + 1, id) == 8) <==>
      Errors(h, n, id) == 7 || Errors(h, n, id) + Reboots(h, n, id) + 1 < 8
  {
    hide Apply;
    DeathBound(h, n, id);
    Kills(h, n, id);
  }

  // ---- a purge can die of one error ---------------------------------------------------

  /** A deleted repository whose purge is claimed and booted away n times. */
  function Boots(n: nat): seq<Event> {
    if n == 0 then [Submit(PURGE, 0)] else Boots(n - 1) + [Claim(0, seq(n, i => 'x'), 0), BootDeleted(STALE_MS + 1)]
  }

  ghost predicate OnePurge(t: Table, n: nat) {
    t.next == 1 && t.jobs.Keys == {0} && t.jobs[0].kind == PURGE && t.jobs[0].attempts == n && t.jobs[0].state.Queued?
  }

  lemma BootTurn(t: Table, n: nat, token: Token)
    requires OnePurge(t, n)
    ensures OnePurge(Apply(Apply(t, Claim(0, token, 0)), BootDeleted(STALE_MS + 1)), n + 1)
  {
    var u := Apply(t, Claim(0, token, 0));
    var v := u.(jobs := map id | id in u.jobs :: Rebooted(u.jobs[id], STALE_MS + 1));
    assert v.jobs.Keys == {0} && v.jobs[0].kind == PURGE && !v.jobs[0].state.Dead?;
  }

  lemma {:induction false} BootedPurge(n: nat)
    ensures OnePurge(After(Boots(n)), n) && forall i :: 0 <= i < |Boots(n)| ==> !Boots(n)[i].Land?
  {
    hide Apply;
    if n == 0 {
      AfterSnoc([], Submit(PURGE, 0));
      FirstPurge();
    } else {
      BootedPurge(n - 1);
      var was, c, b := Boots(n - 1), Claim(0, seq(n, i => 'x'), 0), BootDeleted(STALE_MS + 1);
      assert Boots(n) == (was + [c]) + [b];
      AfterSnoc(was, c);
      AfterSnoc(was + [c], b);
      BootTurn(After(was), n - 1, c.token);
    }
  }

  lemma FirstPurge()
    ensures OnePurge(Apply(Table(map[], 0), Submit(PURGE, 0)), 0)
  {
  }

  lemma AfterSnoc(h: seq<Event>, e: Event)
    ensures After(h + [e]) == Apply(After(h), e)
  {
    assert (h + [e])[..|h|] == h;
  }

  /** Seven boots and one error: dead after a single error, with no stranding counted. */
  lemma PurgeDiesEarly()
    ensures var h := Boots(7) + [Claim(0, "y", 0), Land(0, "y", 0, Error)];
      0 in After(h).jobs && After(h).jobs[0].state.Dead? && Errors(h, |h|, 0) == 1
  {
    hide Boots;
    var was, c, l := Boots(7), Claim(0, "y", 0), Land(0, "y", 0, Error);
    BootedPurge(7);
    assert was + [c, l] == (was + [c]) + [l];
    AfterSnoc(was, c);
    AfterSnoc(was + [c], l);
    NoErrors(was + [c, l], |was| + 1);
    assert (was + [c, l])[..|was| + 1] == was + [c];
  }

  lemma {:induction false} NoErrors(h: seq<Event>, n: nat)
    requires n <= |h| && forall i :: 0 <= i < n ==> !h[i].Land?
    ensures Errors(h, n, 0) == 0
  {
    if n > 0 { NoErrors(h, n - 1); }
  }

  // ---- heard of, and due again --------------------------------------------------------

  /** The event stamps row id: a claim that succeeds, or a heartbeat under the lease. */
  predicate HeardOn(t: Table, e: Event, id: nat) {
    || (e.Claim? && e.id == id && id in t.jobs && t.jobs[id].state.Queued?)
    || (e.Beat? && e.id == id && Held(t, id, e.token))
  }

  /** When row id was last heard of in the first n events. */
  function HeardAt(h: seq<Event>, n: nat, id: nat): Option<int>
    requires n <= |h|
  {
    if n == 0 then None
    else if HeardOn(After(h[..n - 1]), h[n - 1], id) then Some(h[n - 1].now)
    else HeardAt(h, n - 1, id)
  }

  lemma StepHeard(t: Table, e: Event, id: nat)
    requires id in Apply(t, e).jobs && Apply(t, e).jobs[id].state.Running?
    ensures if HeardOn(t, e, id) then Apply(t, e).jobs[id].startedAt == e.now
            else id in t.jobs && t.jobs[id].state.Running? && Apply(t, e).jobs[id].startedAt == t.jobs[id].startedAt
  {
  }

  /** In every history a running row's stamp is the time it was last heard of. */
  lemma {:induction false} HeardExactly(h: seq<Event>, n: nat, id: nat)
    requires n <= |h| && id in After(h[..n]).jobs && After(h[..n]).jobs[id].state.Running?
    ensures HeardAt(h, n, id) == Some(After(h[..n]).jobs[id].startedAt)
  {
    hide Apply;
    if n > 0 {
      AfterNext(h, n - 1);
      StepHeard(After(h[..n - 1]), h[n - 1], id);
      if !HeardOn(After(h[..n - 1]), h[n - 1], id) { HeardExactly(h, n - 1, id); }
    }
  }

  lemma StepSpares(t: Table, e: Event, id: nat)
    requires e.Repair? && id in t.jobs && t.jobs[id].state.Running?
    ensures id in Apply(t, e).jobs
    ensures if e.now <= t.jobs[id].startedAt + STALE_MS then Apply(t, e).jobs[id] == t.jobs[id]
            else !Apply(t, e).jobs[id].state.Running?
  {
  }

  /** A repair leaves a running row as it is if and only if the row was heard of within the
      stale time. */
  lemma RepairIff(h: seq<Event>, n: nat, id: nat)
    requires n < |h| && h[n].Repair? && id in After(h[..n]).jobs && After(h[..n]).jobs[id].state.Running?
    ensures id in After(h[..n + 1]).jobs && HeardAt(h, n, id).Some?
    ensures After(h[..n + 1]).jobs[id] == After(h[..n]).jobs[id] <==> h[n].now <= HeardAt(h, n, id).value + 60_000
  {
    hide Apply;
    AfterNext(h, n);
    HeardExactly(h, n, id);
    StepSpares(After(h[..n]), h[n], id);
  }

  /** The event neither ends the slice of this lease, nor takes the row, nor repairs later than
      the stale time, nor beats from an earlier clock. */
  predicate Harmless(e: Event, id: nat, token: Token, now: int) {
    match e
    case Land(k, l, _, _) => k != id || l != token
    case Remove(k) => k != id
    case Repair(at) => at <= now + 60_000
    case BootDeleted(at) => at <= now + 60_000
    case Beat(k, _, at) => k != id || at >= now
    case _ => true
  }

  lemma StepLeased(t: Table, e: Event, id: nat, token: Token, now: int)
    requires Held(t, id, token) && id < t.next && t.jobs[id].startedAt >= now && Harmless(e, id, token, now)
    ensures Held(Apply(t, e), id, token) && Apply(t, e).jobs[id].startedAt >= now
  {
  }

  /** A slice heard of at event i, by its claim or a heartbeat, holds its lease through every
      boot up to the stale time later, whatever else happens. */
  lemma {:induction false} HeardSurvives(h: seq<Event>, i: nat, j: nat, id: nat, token: Token)
    requires i < j <= |h| && (h[i].Claim? || h[i].Beat?) && h[i].id == id && h[i].token == token
    requires HeardOn(After(h[..i]), h[i], id)
    requires forall k :: i < k < j ==> Harmless(h[k], id, token, h[i].now)
    ensures Held(After(h[..j]), id, token) && After(h[..j]).jobs[id].startedAt >= h[i].now
    decreases j
  {
    hide Apply, Harmless;
    AfterNext(h, j - 1);
    if j == i + 1 {
      Stamped(After(h[..i]), h[i], id);
    } else {
      HeardSurvives(h, i, j - 1, id, token);
      DeathBound(h, j - 1, id);
      StepLeased(After(h[..j - 1]), h[j - 1], id, token, h[i].now);
    }
  }

  lemma Stamped(t: Table, e: Event, id: nat)
    requires HeardOn(t, e, id)
    ensures Held(Apply(t, e), id, e.token) && Apply(t, e).jobs[id].startedAt == e.now
  {
  }

  predicate QueuedKind(t: Table, id: nat, kind: JobKind) {
    id in t.jobs && t.jobs[id].kind == kind && t.jobs[id].state.Queued?
  }

  /** Asking for a job leaves every row as it was and one of the kind queued: the ones there were,
      or else a new one, due when asked for. */
  lemma EnqueueOnce(t: Table, kind: JobKind, runAt: int, id: nat)
    requires forall k :: k in t.jobs ==> k < t.next
    ensures var u := Apply(t, Enqueue(kind, runAt));
      && (forall k :: k in t.jobs ==> k in u.jobs && u.jobs[k] == t.jobs[k])
      && (QueuedKind(u, id, kind) <==>
           QueuedKind(t, id, kind) || (id == t.next && forall k :: !QueuedKind(t, k, kind)))
      && (id in u.jobs && id !in t.jobs ==> id == t.next && u.jobs[id].runAt == runAt && u.jobs[id].attempts == 0)
  {
    if exists k :: k in t.jobs && t.jobs[k].kind == kind && t.jobs[k].state.Queued? {
      var k :| k in t.jobs && t.jobs[k].kind == kind && t.jobs[k].state.Queued?;
      assert QueuedKind(t, k, kind);
    }
  }

  /** A boot's resurrection leaves no dead row of the kind, one queued, and all others alone. */
  lemma ResurrectExactly(t: Table, kind: JobKind, now: int, id: nat)
    requires forall k :: k in t.jobs ==> k < t.next
    ensures var u := Apply(t, Resurrect(kind, now));
      && (id in u.jobs && u.jobs[id].kind == kind ==> !u.jobs[id].state.Dead?)
      && (exists k :: QueuedKind(u, k, kind))
      && (id in t.jobs && !(t.jobs[id].kind == kind && t.jobs[id].state.Dead?) ==>
           id in u.jobs && u.jobs[id] == t.jobs[id])
  {
    var rest := t.(jobs := map k | k in t.jobs && !(t.jobs[k].kind == kind && t.jobs[k].state.Dead?) :: t.jobs[k]);
    var u := Apply(t, Resurrect(kind, now));
    if exists k :: k in rest.jobs && rest.jobs[k].kind == kind && rest.jobs[k].state.Queued? {
      var k :| k in rest.jobs && rest.jobs[k].kind == kind && rest.jobs[k].state.Queued?;
      assert QueuedKind(u, k, kind);
    } else {
      assert QueuedKind(u, t.next, kind);
    }
  }

  /** Retries wait a minute, then twice as long each time, at most an hour. */
  lemma {:induction false} BackoffDoubles(n: nat)
    ensures Backoff(1) == 60_000 && Backoff(n + 1) == Min(2 * Backoff(n), 3_600_000)
  {
    assert Pow2(1) == 2 * Pow2(0);
    PowSeven();
    if n >= 7 {
      PowGrows(7, Min(n, 20));
      PowGrows(7, Min(n + 1, 20));
    }
  }

  lemma PowSeven()
    ensures Pow2(7) == 128
  {
    assert Pow2(7) == 2 * Pow2(6) == 4 * Pow2(5) == 8 * Pow2(4) == 16 * Pow2(3) == 32 * Pow2(2) == 64 * Pow2(1);
  }

  lemma {:induction false} PowGrows(a: nat, b: nat)
    requires a <= b
    ensures Pow2(a) <= Pow2(b)
    decreases b
  {
    if a < b { PowGrows(a, b - 1); }
  }

  // ---- the table in place -----------------------------------------------------------

  class JobTable {
    var t: Table
    ghost var history: seq<Event>

    ghost predicate Valid()
      reads this
    {
      t == After(history) && Fresh(history)
    }

    constructor ()
      ensures Valid() && history == []
    {
      t, history := Table(map[], 0), [];
    }

    /** Claim a queued row under a new token. */
    method Dispatch(id: nat, token: Token, now: int) returns (claimed: bool)
      requires Valid() && !Issued(history, |history|, token)
      modifies this
      ensures Valid() && history == old(history) + [Claim(id, token, now)]
      ensures claimed <==> Held(t, id, token)
      ensures claimed <==> old(id in t.jobs && t.jobs[id].state.Queued?)
      ensures claimed ==> t.jobs[id].startedAt == now
    {
      claimed := id in t.jobs && t.jobs[id].state.Queued?;
      ghost var h := history + [Claim(id, token, now)];
      assert h[..|history|] == history;
      if !claimed && Held(t, id, token) {
        assert history[..|history|] == history;
        HolderClaimed(history, |history|, id, token);
      }
      history := h;
      if claimed {
        var row := t.jobs[id].(state := Running, startedAt := now, lease := Some(token));
        t := t.(jobs := t.jobs[id := row]);
      }
    }

    /** The compare-and-swap heartbeat. */
    method Heartbeat(id: nat, token: Token, now: int) returns (held: bool)
      requires Valid()
      modifies this
      ensures Valid() && history == old(history) + [Beat(id, token, now)]
      ensures held == old(Held(t, id, token)) == Held(t, id, token)
      ensures t == if held then old(t).(jobs := old(t).jobs[id := old(t).jobs[id].(startedAt := now)]) else old(t)
    {
      held := id in t.jobs && t.jobs[id].state == Running && t.jobs[id].lease == Some(token);
      ghost var h := history + [Beat(id, token, now)];
      assert h[..|history|] == history;
      history := h;
      if held {
        t := t.(jobs := t.jobs[id := t.jobs[id].(startedAt := now)]);
      }
    }

    /** The fenced outcome: a stale slice changes nothing and never lands again. */
    method LandOutcome(id: nat, token: Token, now: int, out: Outcome) returns (landed: bool)
      requires Valid()
      modifies this
      ensures Valid() && history == old(history) + [Land(id, token, now, out)]
      ensures landed == old(Held(t, id, token)) && !Held(t, id, token) && (!landed ==> t == old(t))
      ensures landed ==> t.jobs.Keys == old(t.jobs.Keys) - (if out.Done? then {id} else {})
      ensures forall k :: k in t.jobs && k != id ==> t.jobs[k] == old(t).jobs[k]
      ensures landed && (out.Continue? || out.Reschedule?) ==>
        && t.jobs[id].state.Queued? && t.jobs[id].runAt == (if out.Reschedule? then out.at else now)
        && t.jobs[id].strands == 0 && t.jobs[id].attempts == old(t).jobs[id].attempts
      ensures landed && out.Error? ==>
        && (t.jobs[id].state.Dead? <==> old(t).jobs[id].attempts + 1 >= 8)
        && (!t.jobs[id].state.Dead? ==>
             && t.jobs[id].state.Queued? && t.jobs[id].attempts == old(t).jobs[id].attempts + 1
             && t.jobs[id].runAt == now + Backoff(t.jobs[id].attempts) && t.jobs[id].strands == old(t).jobs[id].strands)
    {
      landed := id in t.jobs && t.jobs[id].state == Running && t.jobs[id].lease == Some(token);
      ghost var h := history + [Land(id, token, now, out)];
      assert h[..|history|] == history;
      history := h;
      if landed {
        var row := t.jobs[id];
        var attempt := row.attempts + 1;
        match out {
          case Done => t := t.(jobs := t.jobs - {id});
          case Continue =>
            t := t.(jobs := t.jobs[id := row.(state := Queued, runAt := now, strands := 0, lease := None)]);
          case Reschedule(at) =>
            t := t.(jobs := t.jobs[id := row.(state := Queued, runAt := at, strands := 0, lease := None)]);
          case Error =>
            if attempt >= MAX_ATTEMPTS {
              t := t.(jobs := t.jobs[id := row.(state := RowState.Dead)]);
            } else {
              t := t.(jobs := t.jobs[id := row.(state := Queued, attempts := attempt, runAt := now + Backoff(attempt),
                lease := None)]);
            }
        }
      }
    }

    /** Boot: stale running rows die or are queued again. */
    method RepairStranded(now: int)
      requires Valid()
      modifies this
      ensures Valid() && history == old(history) + [Repair(now)]
      ensures forall id, token :: Held(t, id, token) <==>
        old(Held(t, id, token)) && old(t.jobs[id].startedAt) >= now - 60_000
    {
      ghost var h := history + [Repair(now)];
      assert h[..|history|] == history;
      history := h;
      t := t.(jobs := map id | id in t.jobs :: Repaired(t.jobs[id], now));
    }

    /** Boot of a deleted repository: a purge is queued or running afterwards. */
    method RebootPurge(now: int)
      requires Valid()
      modifies this
      ensures Valid() && history == old(history) + [BootDeleted(now)]
      ensures exists id :: id in t.jobs && t.jobs[id].kind == PURGE && !t.jobs[id].state.Dead?
      ensures forall id :: id in old(t).jobs && old(t).jobs[id].kind != PURGE ==>
        id in t.jobs && t.jobs[id] == old(t).jobs[id]
    {
      assert history[..|history|] == history;
      DeathBound(history, |history|, t.next);
      AfterSnoc(history, BootDeleted(now));
      history := history + [BootDeleted(now)];
      t := t.(jobs := map id | id in t.jobs :: Rebooted(t.jobs[id], now));
      if !(exists id :: id in t.jobs && t.jobs[id].kind == PURGE && !t.jobs[id].state.Dead?) {
        var id := t.next;
        t := Table(t.jobs[id := Job(PURGE, now, 0, 0, Queued, 0, None)], id + 1);
        assert id in t.jobs && t.jobs[id].kind == PURGE;
      }
    }
  }
}
