/** The ref table, its log, and the commands of a push. */
module Refs {
  import opened Repository

  const MAX_REFS := 65_536
  const FF_WALK_MAX: nat := 200_000

  /** Commits whose parents are recorded. */
  type Commits = map<Sha, seq<Sha>>

  // ---- ancestry ---------------------------------------------------------------------

  ghost predicate Lineage(g: Commits, path: seq<Sha>) {
    path != [] && forall i :: 0 <= i < |path| - 1 ==> Parent(g, path[i], path[i + 1])
  }

  predicate Parent(g: Commits, c: Sha, p: Sha) {
    c in g && p in g[c]
  }

  /** `base` is `tip` or one of its ancestors, in the recorded graph. */
  ghost predicate Ancestor(g: Commits, base: Sha, tip: Sha) {
    exists path :: Lineage(g, path) && path[0] == tip && path[|path| - 1] == base
  }

  lemma AncestorStep(g: Commits, base: Sha, p: Sha, tip: Sha)
    requires Ancestor(g, p, tip) && Parent(g, p, base)
    ensures Ancestor(g, base, tip)
  {
    var path :| Lineage(g, path) && path[0] == tip && path[|path| - 1] == p;
    var longer := path + [base];
    assert Lineage(g, longer) && longer[0] == tip && longer[|longer| - 1] == base;
  }

  lemma AncestorSelf(g: Commits, c: Sha)
    ensures Ancestor(g, c, c)
  {
    assert Lineage(g, [c]) && [c][0] == c && [c][|[c]| - 1] == c;
  }

  lemma AncestorTrans(g: Commits, a: Sha, b: Sha, c: Sha)
    requires Ancestor(g, a, b) && Ancestor(g, b, c)
    ensures Ancestor(g, a, c)
  {
    var low :| Lineage(g, low) && low[0] == b && low[|low| - 1] == a;
    var high :| Lineage(g, high) && high[0] == c && high[|high| - 1] == b;
    var path := high + low[1..];
    forall i | 0 <= i < |path| - 1 ensures Parent(g, path[i], path[i + 1]) {
      if i < |high| - 1 {
        assert Parent(g, high[i], high[i + 1]);
      } else {
        var j := i - (|high| - 1);
        assert Parent(g, low[j], low[j + 1]);
      }
    }
    assert Lineage(g, path) && path[0] == c && path[|path| - 1] == a;
  }

  /** Recorded parents never change; commits are only added. */
  ghost predicate Grows(g: Commits, g': Commits) {
    forall c :: c in g ==> c in g' && g'[c] == g[c]
  }

  lemma AncestorKept(g: Commits, g': Commits, base: Sha, tip: Sha)
    requires Grows(g, g') && Ancestor(g, base, tip)
    ensures Ancestor(g', base, tip)
  {
    var path :| Lineage(g, path) && path[0] == tip && path[|path| - 1] == base;
    forall i | 0 <= i < |path| - 1 ensures Parent(g', path[i], path[i + 1]) {
      assert Parent(g, path[i], path[i + 1]);
    }
    assert Lineage(g', path);
  }

  // ---- the bounded walk -------------------------------------------------------------

  /** The parents of c not met yet, once each. */
  function NewParents(out: seq<Sha>, ps: seq<Sha>): seq<Sha> {
    if ps == [] then [] else
      var init := NewParents(out, ps[..|ps| - 1]);
      var p := ps[|ps| - 1];
      if p in out || p in init then init else init + [p]
  }

  lemma {:induction false} NewParentsAre(out: seq<Sha>, ps: seq<Sha>, x: Sha)
    ensures x in NewParents(out, ps) ==> x in ps
    ensures x in ps ==> x in out || x in NewParents(out, ps)
  {
    if ps != [] {
      NewParentsAre(out, ps[..|ps| - 1], x);
      assert ps == ps[..|ps| - 1] + [ps[|ps| - 1]];
    }
  }

  /** Breadth first from what is met, expanding at most `max` commits. */
  function Expand(g: Commits, out: seq<Sha>, i: nat, max: nat): seq<Sha>
    requires i <= |out|
    decreases max - i
  {
    if i >= max || i == |out| then out
    else Expand(g, out + NewParents(out, Parents(g, out[i])), i + 1, max)
  }

  function Walk(g: Commits, tip: Sha, max: nat): seq<Sha> {
    var out := Expand(g, [tip], 0, max);
    if |out| < max then out else out[..max]
  }

  /** Yes, no, or not provable within the recorded graph and the budget. */
  function FastForward(g: Commits, base: Sha, tip: Sha, max: nat): Option<bool> {
    var anc := Walk(g, tip, max);
    if base in anc then Some(true)
    else if (exists a :: a in anc && a !in g) || |anc| >= max then None
    else Some(false)
  }

  ghost predicate AllAncestors(g: Commits, tip: Sha, out: seq<Sha>) {
    forall a :: a in out ==> Ancestor(g, a, tip)
  }

  /** The first i commits met have been expanded. */
  ghost predicate Expanded(g: Commits, out: seq<Sha>, i: nat)
    requires i <= |out|
  {
    forall j, p :: 0 <= j < i && Parent(g, out[j], p) ==> p in out
  }

  function Parents(g: Commits, c: Sha): seq<Sha> {
    if c in g then g[c] else []
  }

  lemma MetStep(g: Commits, tip: Sha, out: seq<Sha>, c: Sha)
    requires AllAncestors(g, tip, out) && c in out
    ensures AllAncestors(g, tip, out + NewParents(out, Parents(g, c)))
  {
    var more := NewParents(out, Parents(g, c));
    forall a | a in out + more ensures Ancestor(g, a, tip) {
      if a !in out {
        NewParentsAre(out, Parents(g, c), a);
        AncestorStep(g, a, c, tip);
      }
    }
  }

  lemma ExpandedStep(g: Commits, out: seq<Sha>, i: nat)
    requires i < |out| && Expanded(g, out, i)
    ensures Expanded(g, out + NewParents(out, Parents(g, out[i])), i + 1)
  {
    var more := NewParents(out, Parents(g, out[i]));
    forall j, p | 0 <= j < i + 1 && Parent(g, (out + more)[j], p) ensures p in out + more {
      assert (out + more)[j] == out[j];
      if j == i { NewParentsAre(out, Parents(g, out[i]), p); }
    }
  }

  lemma ExpandStops(g: Commits, tip: Sha, out: seq<Sha>, i: nat, max: nat)
    requires i <= |out| && Expanded(g, out, i) && (i >= max || i == |out|)
    ensures |out| < max ==> Expanded(g, out, |out|)
  {
  }

  lemma {:induction false} ExpandOk(g: Commits, tip: Sha, out: seq<Sha>, i: nat, max: nat)
    requires i <= |out| && AllAncestors(g, tip, out) && Expanded(g, out, i) && tip in out
    ensures var r := Expand(g, out, i, max);
      AllAncestors(g, tip, r) && tip in r && (|r| < max ==> Expanded(g, r, |r|))
    decreases max - i
  {
    hide Ancestor, AllAncestors, Expanded, Parents, NewParents;
    if i >= max || i == |out| {
      ExpandStops(g, tip, out, i, max);
    } else {
      MetStep(g, tip, out, out[i]);
      ExpandedStep(g, out, i);
      ExpandOk(g, tip, out + NewParents(out, Parents(g, out[i])), i + 1, max);
    }
  }

  lemma {:induction false} ClosedHolds(g: Commits, out: seq<Sha>, path: seq<Sha>)
    requires Expanded(g, out, |out|) && Lineage(g, path) && path[0] in out
    ensures path[|path| - 1] in out
  {
    if |path| > 1 {
      var init := path[..|path| - 1];
      forall i | 0 <= i < |init| - 1 ensures Parent(g, init[i], init[i + 1]) {
        assert Parent(g, path[i], path[i + 1]);
      }
      ClosedHolds(g, out, init);
      var k := |path| - 2;
      assert Parent(g, path[k], path[k + 1]) && path[k] == init[|init| - 1];
      var j :| 0 <= j < |out| && out[j] == path[k];
    }
  }

  predicate Distinct(out: seq<Sha>) {
    forall i, j :: 0 <= i < j < |out| ==> out[i] != out[j]
  }

  lemma {:induction false} NewParentsOnce(out: seq<Sha>, ps: seq<Sha>)
    requires Distinct(out)
    ensures Distinct(out + NewParents(out, ps))
  {
    if ps != [] {
      var init, p := NewParents(out, ps[..|ps| - 1]), ps[|ps| - 1];
      NewParentsOnce(out, ps[..|ps| - 1]);
      assert out + (init + [p]) == (out + init) + [p];
    }
  }

  lemma {:induction false} ExpandOnce(g: Commits, out: seq<Sha>, i: nat, max: nat)
    requires i <= |out| && Distinct(out)
    ensures Distinct(Expand(g, out, i, max))
    decreases max - i
  {
    hide Distinct;
    if i < max && i < |out| {
      NewParentsOnce(out, Parents(g, out[i]));
      ExpandOnce(g, out + NewParents(out, Parents(g, out[i])), i + 1, max);
    }
  }

  function Members(out: seq<Sha>): set<Sha> {
    set a | a in out
  }

  lemma {:induction false} DistinctCount(out: seq<Sha>)
    requires Distinct(out)
    ensures |Members(out)| == |out|
  {
    if out != [] {
      var init := out[..|out| - 1];
      DistinctCount(init);
      assert Members(out) == Members(init) + {out[|out| - 1]};
    }
  }

  ghost predicate Ancestors(g: Commits, tip: Sha, met: set<Sha>) {
    forall a :: a in met ==> Ancestor(g, a, tip)
  }

  /** The tip has as many ancestors as the walk may visit. */
  ghost predicate Beyond(g: Commits, tip: Sha, max: nat) {
    exists met :: Ancestors(g, tip, met) && |met| == max
  }

  /** The tip descends from a commit that is not recorded. */
  ghost predicate Shallow(g: Commits, tip: Sha) {
    exists a :: Ancestor(g, a, tip) && a !in g
  }

  lemma WalkOk(g: Commits, tip: Sha, max: nat)
    requires max > 0
    ensures AllAncestors(g, tip, Walk(g, tip, max))
    ensures |Walk(g, tip, max)| < max ==> forall a :: Ancestor(g, a, tip) ==> a in Walk(g, tip, max)
    ensures |Walk(g, tip, max)| >= max ==> Beyond(g, tip, max)
  {
    hide Ancestor;
    AncestorSelf(g, tip);
    ExpandOk(g, tip, [tip], 0, max);
    var out, anc := Expand(g, [tip], 0, max), Walk(g, tip, max);
    assert forall a :: a in anc ==> a in out;
    if |anc| < max {
      AncestorsMet(g, tip, out);
    } else {
      ExpandOnce(g, [tip], 0, max);
      DistinctCount(anc);
      assert Ancestors(g, tip, Members(anc)) && |Members(anc)| == max;
    }
  }

  lemma AncestorsMet(g: Commits, tip: Sha, out: seq<Sha>)
    requires Expanded(g, out, |out|) && tip in out
    ensures forall a :: Ancestor(g, a, tip) ==> a in out
  {
    forall a | Ancestor(g, a, tip) ensures a in out {
      var path :| Lineage(g, path) && path[0] == tip && path[|path| - 1] == a;
      ClosedHolds(g, out, path);
    }
  }

  /** The walk answers yes or no only when that is the truth, and no only when every commit
      the tip descends from is recorded; it answers neither only where one is not, or where
      the budget is spent on ancestors. */
  lemma FastForwardTruth(g: Commits, base: Sha, tip: Sha, max: nat)
    requires max > 0
    ensures FastForward(g, base, tip, max) == Some(true) ==> Ancestor(g, base, tip)
    ensures FastForward(g, base, tip, max) == Some(false) ==>
      !Ancestor(g, base, tip) && forall a :: Ancestor(g, a, tip) ==> a in g
    ensures FastForward(g, base, tip, max) == None ==> Shallow(g, tip) || Beyond(g, tip, max)
  {
    hide Ancestor, Walk, Beyond;
    WalkOk(g, tip, max);
  }

  /** Within a recorded history smaller than the budget it always answers, and rightly. */
  lemma FastForwardAnswers(g: Commits, base: Sha, tip: Sha, max: nat, history: set<Sha>)
    requires |history| < max && forall a :: Ancestor(g, a, tip) ==> a in history && a in g
    ensures FastForward(g, base, tip, max) == Some(Ancestor(g, base, tip))
  {
    hide Ancestor, FastForward;
    FastForwardTruth(g, base, tip, max);
    if Beyond(g, tip, max) {
      var met :| Ancestors(g, tip, met) && |met| == max;
      Fewer(met, history);
    }
    assert !Shallow(g, tip);
    var answer := FastForward(g, base, tip, max);
    assert answer == Some(answer.value) && (answer.value == true || answer.value == false);
  }

  // ---- commands ---------------------------------------------------------------------

  /** One command; None stands for the null id: a create has no old value, a delete no new. */
  datatype Cmd = Cmd(name: RefName, prev: Option<Sha>, next: Option<Sha>, peeled: Option<Sha>)

  datatype Reason =
    | FunnyRefname | OutsideScope | Pinned | CurrentBranch | DeletionRefused | NotFastForward | Unproven
    | MissingObjects | TooManyRefs | Lost | AtomicFailed

  /** What a push is judged by: valid names, token scopes, pins, protection, the current
      branch, the live objects and the recorded commits. */
  datatype Env = Env(valid: RefName -> bool, inScope: RefName -> bool, pinned: set<RefName>, protected: RefName -> bool,
                     head: RefName, live: set<Sha>, commits: Commits)

  type Table = map<RefName, Ref>

  function Target(t: Table, n: RefName): Option<Sha> {
    if n in t then Some(t[n].target) else None
  }

  function ProtectedVerdict(isCreate: bool, isDelete: bool, ff: Option<bool>): Option<Reason> {
    if isDelete then Some(DeletionRefused)
    else if isCreate then None
    else match ff
      case Some(true) => None
      case Some(false) => Some(NotFastForward)
      case None => Some(Unproven)
  }

  /** The checks that do not look at the table, in the order they are made. */
  function Judged(env: Env, c: Cmd): Option<Reason> {
    if !env.valid(c.name) then Some(FunnyRefname)
    else if !env.inScope(c.name) then Some(OutsideScope)
    else if c.prev.None? && c.next.None? then Some(FunnyRefname)
    else if c.name in env.pinned then Some(Pinned)
    else if c.next.None? && c.name == env.head then Some(CurrentBranch)
    else
      var verdict := if env.protected(c.name) then ProtectedVerdict(c.prev.None?, c.next.None?,
          if c.prev.None? || c.next.None? then None
            else FastForward(env.commits, c.prev.value, c.next.value, FF_WALK_MAX))
        else None;
      if verdict.Some? then verdict
      else if c.next.Some? && c.next.value !in env.live then Some(MissingObjects)
      else None
  }

  /** Every check but the compare-and-swap. */
  function Refused(env: Env, t: Table, c: Cmd): Option<Reason> {
    var r := Judged(env, c);
    if r.Some? then r
    else if c.next.Some? && c.prev.None? && |t| >= MAX_REFS then Some(TooManyRefs)
    else None
  }

  /** A create lands iff the ref is absent; an update or delete iff it stands at the expected
      value. */
  predicate CasOk(t: Table, c: Cmd) {
    Target(t, c.name) == c.prev
  }

  /** The dry run's verdict. */
  function DryRun(env: Env, t: Table, c: Cmd): Option<Reason> {
    var r := Refused(env, t, c);
    if r.Some? then r else if CasOk(t, c) then None else Some(Lost)
  }

  // ---- what the verdicts mean -------------------------------------------------------

  const RULES: nat := 11

  /** The rules a command must meet, in the order they are judged: a valid name, in scope, some
      value to move from or to, not pinned, not a delete of the current branch; on a protected
      ref not a delete, not disproved and not unproven as a fast-forward; a live target, room
      for a create, and the ref standing where the command expects it. */
  ghost predicate Meets(env: Env, t: Table, c: Cmd, rule: nat) {
    var update := c.prev.Some? && c.next.Some?;
    match rule
    case 0 => env.valid(c.name)
    case 1 => env.inScope(c.name)
    case 2 => c.prev.Some? || c.next.Some?
    case 3 => c.name !in env.pinned
    case 4 => c.next.Some? || c.name != env.head
    case 5 => env.protected(c.name) ==> c.next.Some?
    case 6 => env.protected(c.name) && update ==>
      FastForward(env.commits, c.prev.value, c.next.value, FF_WALK_MAX) != Some(false)
    case 7 => env.protected(c.name) && update ==>
      FastForward(env.commits, c.prev.value, c.next.value, FF_WALK_MAX) != None
    case 8 => c.next.Some? ==> c.next.value in env.live
    case 9 => c.prev.None? ==> |t| < MAX_REFS
    case 10 => if c.prev.None? then c.name !in t else c.name in t && t[c.name].target == c.prev.value
    case _ => true
  }

  function ReasonOf(rule: nat): Reason {
    match rule
    case 0 => FunnyRefname
    case 1 => OutsideScope
    case 2 => FunnyRefname
    case 3 => Pinned
    case 4 => CurrentBranch
    case 5 => DeletionRefused
    case 6 => NotFastForward
    case 7 => Unproven
    case 8 => MissingObjects
    case 9 => TooManyRefs
    case _ => Lost
  }

  ghost predicate MeetsTo(env: Env, t: Table, c: Cmd, rule: nat) {
    forall k: nat :: k < rule ==> Meets(env, t, c, k)
  }

  /** The command meets every rule. */
  ghost predicate Acceptable(env: Env, t: Table, c: Cmd) {
    MeetsTo(env, t, c, RULES)
  }

  /** `rule` is the first the command breaks. */
  ghost predicate Breaks(env: Env, t: Table, c: Cmd, rule: nat) {
    rule < RULES && MeetsTo(env, t, c, rule) && !Meets(env, t, c, rule)
  }

  /** The rule a refusal is for. */
  function BrokenRule(env: Env, t: Table, c: Cmd): nat {
    match DryRun(env, t, c)
    case None => RULES
    case Some(FunnyRefname) => if env.valid(c.name) then 2 else 0
    case Some(OutsideScope) => 1
    case Some(Pinned) => 3
    case Some(CurrentBranch) => 4
    case Some(DeletionRefused) => 5
    case Some(NotFastForward) => 6
    case Some(Unproven) => 7
    case Some(MissingObjects) => 8
    case Some(TooManyRefs) => 9
    case Some(_) => 10
  }

  /** A command passes if and only if it meets every rule; else the answer is the reason of the
      first rule it breaks. */
  lemma VerdictIff(env: Env, t: Table, c: Cmd)
    ensures DryRun(env, t, c).None? <==> Acceptable(env, t, c)
    ensures DryRun(env, t, c).Some? ==>
      var rule := BrokenRule(env, t, c); Breaks(env, t, c, rule) && DryRun(env, t, c).value == ReasonOf(rule)
  {
    hide FastForward;
    var rule := BrokenRule(env, t, c);
    if DryRun(env, t, c).Some? { assert !Meets(env, t, c, rule); }
    assert Meets(env, t, c, 0) <==> env.valid(c.name);
  }

  function Written(t: Table, c: Cmd): Table {
    if c.next.None? then t - {c.name} else t[c.name := Ref(c.next.value, c.peeled)]
  }

  /** One row of the ref log. */
  datatype LogRow = LogRow(name: RefName, prev: Option<Sha>, next: Option<Sha>)

  /** The values the log leaves the refs at. */
  function Replay(log: seq<LogRow>): map<RefName, Sha> {
    if log == [] then map[] else
      var m, r := Replay(log[..|log| - 1]), log[|log| - 1];
      if r.next.None? then m - {r.name} else m[r.name := r.next.value]
  }

  function At(m: map<RefName, Sha>, n: RefName): Option<Sha> {
    if n in m then Some(m[n]) else None
  }

  /** Each row's old value is what the rows before it left that ref at. */
  ghost predicate Chained(log: seq<LogRow>) {
    forall i :: 0 <= i < |log| ==> log[i].prev == At(Replay(log[..i]), log[i].name)
  }

  /** Replaying the log gives the table. */
  ghost predicate Logged(t: Table, log: seq<LogRow>) {
    Chained(log) && forall n :: At(Replay(log), n) == Target(t, n)
  }

  lemma LogSnoc(t: Table, log: seq<LogRow>, c: Cmd)
    requires Logged(t, log) && CasOk(t, c)
    ensures Logged(Written(t, c), log + [LogRow(c.name, c.prev, c.next)])
  {
    var row := LogRow(c.name, c.prev, c.next);
    var log' := log + [row];
    assert log'[..|log|] == log;
    forall i | 0 <= i < |log'| ensures log'[i].prev == At(Replay(log'[..i]), log'[i].name) {
      if i < |log| { assert log'[..i] == log[..i]; }
    }
    forall n ensures At(Replay(log'), n) == Target(Written(t, c), n) {
      assert At(Replay(log), n) == Target(t, n);
    }
  }

  /** The log replays to the table at ref n. */
  ghost predicate Agrees(t: Table, log: seq<LogRow>, n: RefName) {
    At(Replay(log), n) == Target(t, n)
  }

  /** The ref and its row are two statements.  A landing cut between them leaves the other refs
      as they were and its own agreeing only if the log had it at the new value already; the
      next landing of the ref that is logged mends it. */
  lemma LogCut(t: Table, log: seq<LogRow>, c: Cmd, logged: bool, n: RefName)
    requires CasOk(t, c)
    ensures Agrees(Written(t, c), if logged then log + [LogRow(c.name, c.prev, c.next)] else log, n) <==>
      if n != c.name then Agrees(t, log, n) else logged || At(Replay(log), n) == c.next
  {
    var row := LogRow(c.name, c.prev, c.next);
    assert (log + [row])[..|log|] == log;
  }

  // ---- commands in turn -------------------------------------------------------------

  /** The table after the first i commands, each landing or not. */
  function After(env: Env, t: Table, cmds: seq<Cmd>, i: nat): Table
    requires i <= |cmds|
  {
    if i == 0 then t else
      var u := After(env, t, cmds, i - 1);
      if DryRun(env, u, cmds[i - 1]).None? then Written(u, cmds[i - 1]) else u
  }

  predicate Lands(env: Env, t: Table, cmds: seq<Cmd>, i: nat)
    requires i < |cmds|
  {
    DryRun(env, After(env, t, cmds, i), cmds[i]).None?
  }

  /** The answers tell which commands landed. */
  ghost predicate LandsAs(env: Env, t: Table, cmds: seq<Cmd>, results: seq<Option<Reason>>) {
    |results| <= |cmds| && forall i :: 0 <= i < |results| ==> (results[i].None? <==> Lands(env, t, cmds, i))
  }

  lemma LandsSnoc(env: Env, t: Table, cmds: seq<Cmd>, results: seq<Option<Reason>>, r: Option<Reason>)
    requires LandsAs(env, t, cmds, results) && |results| < |cmds| && (r.None? <==> Lands(env, t, cmds, |results|))
    ensures LandsAs(env, t, cmds, results + [r])
  {
  }

  /** The refs there are after the first i commands, if all land. */
  function Count(cmds: seq<Cmd>, n: int, i: nat): int
    requires i <= |cmds|
  {
    if i == 0 then n
    else Count(cmds, n, i - 1) + (if cmds[i - 1].prev.None? then 1 else 0) - (if cmds[i - 1].next.None? then 1 else 0)
  }

  /** Where a ref stands after the first i commands, if all land. */
  function Final(cmds: seq<Cmd>, i: nat, n: RefName, x: Option<Sha>): Option<Sha>
    requires i <= |cmds|
  {
    if i == 0 then x else if cmds[i - 1].name == n then cmds[i - 1].next else Final(cmds, i - 1, n, x)
  }

  /** Command i finds its ref as it was and, if it creates one, room for it. */
  ghost predicate Unhindered(cmds: seq<Cmd>, n: int, i: nat)
    requires i < |cmds|
  {
    && (forall j :: 0 <= j < i && cmds[j].name == cmds[i].name ==> cmds[j].next == cmds[j].prev)
    && (cmds[i].prev.None? ==> Count(cmds, n, i) < MAX_REFS)
  }

  ghost predicate AllPass(env: Env, t: Table, cmds: seq<Cmd>) {
    forall i :: 0 <= i < |cmds| ==> DryRun(env, t, cmds[i]).None?
  }

  /** The first i commands all land. */
  ghost predicate AllLand(env: Env, t: Table, cmds: seq<Cmd>, i: nat)
    requires i <= |cmds|
  {
    i > 0 ==> AllLand(env, t, cmds, i - 1) && Lands(env, t, cmds, i - 1)
  }

  /** The first i commands are all unhindered. */
  ghost predicate AllFree(cmds: seq<Cmd>, n: int, i: nat)
    requires i <= |cmds|
  {
    i > 0 ==> AllFree(cmds, n, i - 1) && Unhindered(cmds, n, i - 1)
  }

  lemma {:induction false} FreeAt(cmds: seq<Cmd>, n: int, i: nat, k: nat)
    requires k < i <= |cmds| && AllFree(cmds, n, i)
    ensures Unhindered(cmds, n, k)
  {
    if k < i - 1 { FreeAt(cmds, n, i - 1, k); }
  }

  lemma {:induction false} AllLanded(env: Env, t: Table, cmds: seq<Cmd>, i: nat)
    requires i <= |cmds| && AllLand(env, t, cmds, i)
    ensures |After(env, t, cmds, i)| == Count(cmds, |t|, i)
    ensures forall n :: Target(After(env, t, cmds, i), n) == Final(cmds, i, n, Target(t, n))
  {
    if i > 0 {
      AllLanded(env, t, cmds, i - 1);
      var u := After(env, t, cmds, i - 1);
      LandedIs(env, u, cmds[i - 1]);
      WrittenSize(u, cmds[i - 1]);
    }
  }

  lemma LandedIs(env: Env, t: Table, c: Cmd)
    requires DryRun(env, t, c).None?
    ensures CasOk(t, c) && !(c.prev.None? && c.next.None?)
  {
  }

  lemma WrittenSize(t: Table, c: Cmd)
    requires CasOk(t, c) && !(c.prev.None? && c.next.None?)
    ensures |Written(t, c)| == |t| + (if c.prev.None? then 1 else 0) - (if c.next.None? then 1 else 0)
    ensures forall n :: Target(Written(t, c), n) == if c.name == n then c.next else Target(t, n)
  {
    if c.next.None? {
      assert (t - {c.name}).Keys == t.Keys - {c.name};
    } else {
      var u := t[c.name := Ref(c.next.value, c.peeled)];
      assert u.Keys == t.Keys + {c.name};
      assert |u.Keys| == |u| && |t.Keys| == |t|;
    }
  }

  /** If no earlier command moves the ref, it stands where it did; and conversely. */
  lemma {:induction false} FinalSame(cmds: seq<Cmd>, i: nat, n: RefName, x: Option<Sha>)
    requires i <= |cmds| && forall j :: 0 <= j < i && cmds[j].name == n ==> cmds[j].prev == x
    requires forall j, k :: 0 <= j < k < i && cmds[j].name == cmds[k].name ==> cmds[j].next == cmds[j].prev
    ensures Final(cmds, i, n, x) == x <==> forall j :: 0 <= j < i && cmds[j].name == n ==> cmds[j].next == cmds[j].prev
  {
    if i > 0 { FinalSame(cmds, i - 1, n, x); }
  }

  /** After commands that all landed, the next lands exactly if it is unhindered. */
  lemma LandsIff(env: Env, t: Table, cmds: seq<Cmd>, i: nat)
    requires AllPass(env, t, cmds) && i < |cmds| && AllLand(env, t, cmds, i) && AllFree(cmds, |t|, i)
    ensures Lands(env, t, cmds, i) <==> Unhindered(cmds, |t|, i)
  {
    var u, c := After(env, t, cmds, i), cmds[i];
    AllLanded(env, t, cmds, i);
    assert DryRun(env, t, c).None?;
    assert Refused(env, u, c).None? <==> !(c.prev.None? && |u| >= MAX_REFS);
    forall j, k | 0 <= j < k < i && cmds[j].name == cmds[k].name ensures cmds[j].next == cmds[j].prev {
      FreeAt(cmds, |t|, i, k);
    }
    forall j | 0 <= j < i && cmds[j].name == c.name ensures cmds[j].prev == Target(t, c.name) {
      assert DryRun(env, t, cmds[j]).None?;
    }
    FinalSame(cmds, i, c.name, Target(t, c.name));
  }

  lemma {:induction false} FirstHindered(env: Env, t: Table, cmds: seq<Cmd>, i: nat)
    requires AllPass(env, t, cmds) && i <= |cmds|
    ensures AllLand(env, t, cmds, i) <==> AllFree(cmds, |t|, i)
  {
    if i > 0 {
      FirstHindered(env, t, cmds, i - 1);
      if AllLand(env, t, cmds, i - 1) { LandsIff(env, t, cmds, i - 1); }
    }
  }

  /** After a dry run that passes, all commands land if and only if none repeats a ref an
      earlier one moves, and every create finds room: the push is then all or nothing. */
  lemma AtomicIff(env: Env, t: Table, cmds: seq<Cmd>)
    requires AllPass(env, t, cmds)
    ensures AllLand(env, t, cmds, |cmds|) <==> AllFree(cmds, |t|, |cmds|)
    ensures cmds != [] ==> Lands(env, t, cmds, 0)
  {
    FirstHindered(env, t, cmds, |cmds|);
    if cmds != [] { assert DryRun(env, t, cmds[0]).None?; }
  }

  /** With distinct names and room for every create, an atomic push applies all or none. */
  lemma DistinctIsAtomic(env: Env, t: Table, cmds: seq<Cmd>)
    requires AllPass(env, t, cmds) && |t| + |cmds| <= MAX_REFS
    requires forall i, j :: 0 <= i < j < |cmds| ==> cmds[i].name != cmds[j].name
    ensures AllLand(env, t, cmds, |cmds|)
  {
    DistinctFree(cmds, |t|, |cmds|);
    AtomicIff(env, t, cmds);
  }

  lemma {:induction false} DistinctFree(cmds: seq<Cmd>, n: nat, i: nat)
    requires i <= |cmds| && n + i <= MAX_REFS && forall a, b :: 0 <= a < b < |cmds| ==> cmds[a].name != cmds[b].name
    ensures AllFree(cmds, n, i)
  {
    if i > 0 {
      DistinctFree(cmds, n, i - 1);
      CountBound(cmds, n, i - 1);
    }
  }

  lemma {:induction false} CountBound(cmds: seq<Cmd>, n: int, i: nat)
    requires i <= |cmds|
    ensures Count(cmds, n, i) <= n + i
  {
    if i > 0 { CountBound(cmds, n, i - 1); }
  }

  /** Creating one ref twice in an atomic push lands once: the dry run passes, the push is
      cut in half. */
  lemma RepeatedCreate(env: Env, t: Table, c: Cmd)
    requires DryRun(env, t, c).None? && c.prev.None?
    ensures AllPass(env, t, [c, c]) && Lands(env, t, [c, c], 0) && !Lands(env, t, [c, c], 1)
  {
    AtomicIff(env, t, [c, c]);
    assert !Unhindered([c, c], |t|, 1) by { assert [c, c][0].next != [c, c][0].prev; }
  }

  /** A command that would have passed fails with the push. */
  function OrAtomic(r: Option<Reason>): Option<Reason> {
    if r.None? then Some(AtomicFailed) else r
  }

  // ---- what a push may change -------------------------------------------------------

  ghost predicate Changed(t: Table, u: Table, n: RefName) {
    if n in t then n !in u || u[n] != t[n] else n in u
  }

  /** A ref a push changed has a valid name in scope and is not pinned; it names a live object,
      or is gone and was neither the current branch nor protected; and a protected ref moved to
      a descendant. */
  ghost predicate Lawful(env: Env, t: Table, u: Table, n: RefName) {
    && env.valid(n) && env.inScope(n) && n !in env.pinned
    && (if n in u then u[n].target in env.live else n != env.head && !env.protected(n))
    && (env.protected(n) && n in t && n in u ==> Ancestor(env.commits, t[n].target, u[n].target))
  }

  ghost predicate LawfulPush(env: Env, t: Table, u: Table) {
    && (forall n :: Changed(t, u, n) ==> Lawful(env, t, u, n))
    && |u| <= if |t| < MAX_REFS then MAX_REFS else |t|
  }

  lemma LawfulStep(env: Env, t: Table, c: Cmd, n: RefName)
    requires DryRun(env, t, c).None? && Changed(t, Written(t, c), n)
    ensures Lawful(env, t, Written(t, c), n) && n == c.name
  {
    hide FastForward, Ancestor;
    VerdictIff(env, t, c);
    assert Meets(env, t, c, 0) && Meets(env, t, c, 1) && Meets(env, t, c, 3) && Meets(env, t, c, 4);
    assert Meets(env, t, c, 5) && Meets(env, t, c, 8);
    if env.protected(n) && n in t { ProtectedStep(env, t, c, n); }
  }

  lemma RoomStep(env: Env, t: Table, c: Cmd)
    requires DryRun(env, t, c).None?
    ensures |Written(t, c)| <= if |t| < MAX_REFS then MAX_REFS else |t|
  {
    hide FastForward;
    VerdictIff(env, t, c);
    assert Meets(env, t, c, 9) && Meets(env, t, c, 10);
    WrittenSize(t, c);
  }

  lemma {:induction false} PushLawful(env: Env, t: Table, cmds: seq<Cmd>, i: nat)
    requires i <= |cmds|
    ensures LawfulPush(env, t, After(env, t, cmds, i))
  {
    hide DryRun, Written, Ancestor;
    if i > 0 {
      PushLawful(env, t, cmds, i - 1);
      var u, v, c := After(env, t, cmds, i - 1), After(env, t, cmds, i), cmds[i - 1];
      if DryRun(env, u, c).None? {
        RoomStep(env, u, c);
        forall n | Changed(t, v, n) ensures Lawful(env, t, v, n) {
          if Changed(u, v, n) { LawfulStep(env, u, c, n); } else { assert Changed(t, u, n); }
          if env.protected(n) && n in t { ProtectedPush(env, t, cmds, i, n); }
        }
      }
    }
  }

  // ---- a push -----------------------------------------------------------------------

  class RefStore {
    var table: Table
    var log: seq<LogRow>

    ghost predicate Valid()
      reads this
    {
      Logged(table, log)
    }

    constructor ()
      ensures Valid() && table == map[] && log == []
    {
      table, log := map[], [];
    }

    /** One command, with the writes: it lands exactly when the dry run at this state passes,
        and then the table and the log move together. */
    method ApplyOne(env: Env, c: Cmd) returns (r: Option<Reason>)
      requires Valid()
      modifies this
      ensures Valid() && r == DryRun(env, old(table), c) && (r.None? <==> Acceptable(env, old(table), c))
      ensures if r.None? then table == Written(old(table), c) && log == old(log) + [LogRow(c.name, c.prev, c.next)]
              else table == old(table) && log == old(log)
    {
      hide FastForward, Meets;
      VerdictIff(env, table, c);
      r := Refused(env, table, c);
      if r.Some? { return; }
      var landed := false;
      if c.prev.None? {
        landed := c.name !in table;
        if landed { table := table[c.name := Ref(c.next.value, c.peeled)]; }
      } else if c.next.None? {
        landed := c.name in table && table[c.name].target == c.prev.value;
        if landed { table := table - {c.name}; }
      } else {
        landed := c.name in table && table[c.name].target == c.prev.value;
        if landed { table := table[c.name := Ref(c.next.value, c.peeled)]; }
      }
      if !landed { return Some(Lost); }
      LogSnoc(old(table), log, c);
      log := log + [LogRow(c.name, c.prev, c.next)];
    }

    /** The dry run of an atomic push. */
    method TryAll(env: Env, cmds: seq<Cmd>) returns (results: seq<Option<Reason>>, ok: bool)
      ensures |results| == |cmds| && forall i :: 0 <= i < |cmds| ==> results[i] == DryRun(env, table, cmds[i])
      ensures ok <==> AllPass(env, table, cmds)
      ensures forall i :: 0 <= i < |cmds| ==> (results[i].None? <==> Acceptable(env, table, cmds[i]))
    {
      hide DryRun, Acceptable;
      results, ok := [], true;
      for i := 0 to |cmds|
        invariant |results| == i && forall j :: 0 <= j < i ==> results[j] == DryRun(env, table, cmds[j])
        invariant forall j :: 0 <= j < i ==> (results[j].None? <==> Acceptable(env, table, cmds[j]))
        invariant ok <==> forall j :: 0 <= j < i ==> results[j].None?
      {
        VerdictIff(env, table, cmds[i]);
        var r := DryRun(env, table, cmds[i]);
        results, ok := results + [r], ok && r.None?;
      }
    }

    /** The commands in turn; each sees what the ones before it wrote. */
    method ApplyAll(env: Env, cmds: seq<Cmd>) returns (results: seq<Option<Reason>>)
      requires Valid()
      modifies this
      ensures Valid() && |results| == |cmds| && old(log) <= log
      ensures table == After(env, old(table), cmds, |cmds|) && LandsAs(env, old(table), cmds, results)
    {
      hide DryRun, Written;
      results := [];
      for i := 0 to |cmds|
        invariant Valid() && |results| == i && table == After(env, old(table), cmds, i) && old(log) <= log
        invariant LandsAs(env, old(table), cmds, results)
      {
        var r := ApplyOne(env, cmds[i]);
        LandsSnoc(env, old(table), cmds, results, r);
        results := results + [r];
      }
    }

    /** `commit_push`'s ref commands. An atomic push first tries every command against the
        table as it is, and writes nothing if one fails. Whatever lands changes refs lawfully,
        and a command alone lands exactly when it meets the rules. */
    method CommitPush(env: Env, cmds: seq<Cmd>, atomic: bool) returns (results: seq<Option<Reason>>, committed: bool)
      requires Valid()
      modifies this
      ensures Valid() && |results| == |cmds|
      ensures committed <==> !atomic || AllPass(env, old(table), cmds)
      ensures !committed ==> table == old(table) && log == old(log)
      ensures !committed ==> forall i :: 0 <= i < |cmds| ==> results[i] == OrAtomic(DryRun(env, table, cmds[i]))
      ensures committed ==> table == After(env, old(table), cmds, |cmds|)
      ensures committed ==> LandsAs(env, old(table), cmds, results)
      ensures old(log) <= log && LawfulPush(env, old(table), table)
      ensures committed <==> !atomic || forall i :: 0 <= i < |cmds| ==> Acceptable(env, old(table), cmds[i])
      ensures |cmds| == 1 ==>
        && (results[0].None? <==> Acceptable(env, old(table), cmds[0]))
        && table == (if results[0].None? then Written(old(table), cmds[0]) else old(table))
    {
      hide DryRun, Written, Acceptable, LawfulPush;
      results, committed := [], true;
      Passing(env, table, cmds);
      PushLawful(env, table, cmds, |cmds|);
      PushLawful(env, table, cmds, 0);
      if |cmds| == 1 { OneCommand(env, table, cmds); }
      if atomic {
        results, committed := TryAll(env, cmds);
        if !committed { return seq(|cmds|, i requires 0 <= i < |results| => OrAtomic(results[i])), false; }
      }
      results := ApplyAll(env, cmds);
    }
  }

  // ---- protected refs over pushes ---------------------------------------------------

  /** A landed command moves a protected ref only forward. */
  lemma ProtectedStep(env: Env, t: Table, c: Cmd, n: RefName)
    requires env.protected(n) && n in t && DryRun(env, t, c).None?
    ensures n in Written(t, c) && Ancestor(env.commits, t[n].target, Written(t, c)[n].target)
  {
    AncestorSelf(env.commits, t[n].target);
    if c.name == n && c.next.Some? && c.prev.Some? {
      FastForwardTruth(env.commits, c.prev.value, c.next.value, FF_WALK_MAX);
    }
  }

  lemma {:induction false} ProtectedPush(env: Env, t: Table, cmds: seq<Cmd>, i: nat, n: RefName)
    requires i <= |cmds| && env.protected(n) && n in t
    ensures n in After(env, t, cmds, i) && Ancestor(env.commits, t[n].target, After(env, t, cmds, i)[n].target)
  {
    if i == 0 {
      AncestorSelf(env.commits, t[n].target);
    } else {
      ProtectedPush(env, t, cmds, i - 1, n);
      var u := After(env, t, cmds, i - 1);
      if DryRun(env, u, cmds[i - 1]).None? {
        ProtectedStep(env, u, cmds[i - 1], n);
        AncestorTrans(env.commits, t[n].target, u[n].target, After(env, t, cmds, i)[n].target);
      }
    }
  }

  lemma Passing(env: Env, t: Table, cmds: seq<Cmd>)
    ensures AllPass(env, t, cmds) <==> forall i :: 0 <= i < |cmds| ==> Acceptable(env, t, cmds[i])
  {
    hide DryRun, Acceptable;
    forall i | 0 <= i < |cmds| ensures DryRun(env, t, cmds[i]).None? <==> Acceptable(env, t, cmds[i]) {
      VerdictIff(env, t, cmds[i]);
    }
  }

  lemma OneCommand(env: Env, t: Table, cmds: seq<Cmd>)
    requires |cmds| == 1
    ensures Lands(env, t, cmds, 0) <==> Acceptable(env, t, cmds[0])
    ensures After(env, t, cmds, 1) == if Acceptable(env, t, cmds[0]) then Written(t, cmds[0]) else t
  {
    hide DryRun, Written, Acceptable;
    VerdictIff(env, t, cmds[0]);
    assert After(env, t, cmds, 0) == t;
  }

  /** One push: its circumstances, its commands, and whether it committed. */
  datatype Push = Push(env: Env, cmds: seq<Cmd>, committed: bool)

  function AfterPushes(t: Table, ps: seq<Push>, k: nat): Table
    requires k <= |ps|
  {
    if k == 0 then t else
      var u := AfterPushes(t, ps, k - 1);
      if ps[k - 1].committed then After(ps[k - 1].env, u, ps[k - 1].cmds, |ps[k - 1].cmds|) else u
  }

  /** Recorded commits only accumulate from push to push. */
  ghost predicate Accumulates(ps: seq<Push>) {
    forall i, j :: 0 <= i <= j < |ps| ==> Grows(ps[i].env.commits, ps[j].env.commits)
  }

  /** While it stays protected, an existing ref is never deleted, and where it stood at any
      earlier push is an ancestor of where it stands later. */
  lemma {:induction false} ProtectedForever(t: Table, ps: seq<Push>, i: nat, k: nat, n: RefName)
    requires Accumulates(ps) && i <= k <= |ps| && n in AfterPushes(t, ps, i)
    requires forall j :: i <= j < k ==> ps[j].env.protected(n)
    ensures n in AfterPushes(t, ps, k)
    ensures k > i ==> Ancestor(ps[k - 1].env.commits, AfterPushes(t, ps, i)[n].target, AfterPushes(t, ps, k)[n].target)
    decreases k
  {
    if k > i {
      ProtectedForever(t, ps, i, k - 1, n);
      var a, u, env := AfterPushes(t, ps, i)[n].target, AfterPushes(t, ps, k - 1), ps[k - 1].env;
      AncestorSelf(env.commits, a);
      if k - 1 > i {
        assert Grows(ps[k - 2].env.commits, env.commits);
        AncestorKept(ps[k - 2].env.commits, env.commits, a, u[n].target);
      }
      if ps[k - 1].committed {
        ProtectedPush(env, u, ps[k - 1].cmds, |ps[k - 1].cmds|, n);
        AncestorTrans(env.commits, a, u[n].target, AfterPushes(t, ps, k)[n].target);
      }
    }
  }
}
