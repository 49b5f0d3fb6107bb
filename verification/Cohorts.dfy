/** Choosing which small packs to compact, and when to look again. */
module Cohorts {
  import opened Repository

  const BASE_N := 8
  const LADDER := 16
  const TIERS: nat := 5
  const MAX_BYTES := 0x400_0000
  const COHORT_BYTES := 0x1000_0000
  const MAX64 := 0x7FFF_FFFF_FFFF_FFFF
  const MIN64 := -0x8000_0000_0000_0000

  /** Knobs: the fan-in is at least 2. */
  datatype Knobs = Knobs(fanin: nat, minAge: int, maxRows: int)
  datatype LivePack = LivePack(id: string, count: int, bytes: int, createdAt: int)

  ghost predicate KnobsOk(kn: Knobs) {
    kn.fanin >= 2
  }

  function Saturate(x: int): int {
    if x > MAX64 then MAX64 else if x < MIN64 then MIN64 else x
  }

  /** The fixed ladder: below 8, below 128, below 2048, below 32768, the rest. */
  function TierOf(count: int): (t: nat)
    ensures t < TIERS
  {
    if count < 8 then 0 else if count < 128 then 1 else if count < 2048 then 2 else if count < 32768 then 3 else 4
  }

  method Tier(count: int) returns (t: nat)
    ensures t == TierOf(count)
  {
    var bound := BASE_N;
    t := 0;
    while count >= bound && t < TIERS - 1
      invariant t < TIERS && TierOf(count) >= t
      invariant bound == if t == 0 then 8 else if t == 1 then 128 else if t == 2 then 2048 else if t == 3 then 32768
        else 524288
      decreases TIERS - t
    {
      t := t + 1;
      bound := bound * LADDER;
    }
  }

  /** Fit for compaction at any age. */
  predicate Fit(p: LivePack, quarantined: set<string>, kn: Knobs) {
    1 <= p.count <= kn.maxRows / 2 && p.bytes < MAX_BYTES && p.id !in quarantined
  }

  predicate Eligible(p: LivePack, quarantined: set<string>, cutoff: int, kn: Knobs) {
    Fit(p, quarantined, kn) && p.createdAt <= cutoff
  }

  function Cutoff(now: int, kn: Knobs): int {
    Saturate(now - kn.minAge)
  }

  /** The eligible packs of tier k, in table order. */
  function InTier(packs: seq<LivePack>, quarantined: set<string>, cutoff: int, kn: Knobs, k: nat): seq<LivePack> {
    if packs == [] then [] else
      var p := packs[|packs| - 1];
      InTier(packs[..|packs| - 1], quarantined, cutoff, kn, k)
        + if Eligible(p, quarantined, cutoff, kn) && TierOf(p.count) == k then [p] else []
  }

  /** When the fit packs of tier k come of age. */
  function Ages(packs: seq<LivePack>, quarantined: set<string>, kn: Knobs, k: nat): seq<int> {
    if packs == [] then [] else
      var p := packs[|packs| - 1];
      Ages(packs[..|packs| - 1], quarantined, kn, k)
        + if Fit(p, quarantined, kn) && TierOf(p.count) == k then [Saturate(p.createdAt + kn.minAge)] else []
  }

  // ---- places -----------------------------------------------------------------------

  /** A pack compaction may take: at least one object and at most half the row budget, less than
      64 MiB, and not quarantined. */
  predicate Small(p: LivePack, quarantined: set<string>, kn: Knobs) {
    p.id !in quarantined && p.count >= 1 && 2 * p.count <= kn.maxRows && p.bytes < 67_108_864
  }

  /** Where the small packs of tier k that are old enough stand. */
  function Old(packs: seq<LivePack>, quarantined: set<string>, cutoff: int, kn: Knobs, k: nat): (r: set<nat>)
    ensures forall i :: i in r ==> i < |packs|
  {
    set i: nat | i < |packs| && Small(packs[i], quarantined, kn) && TierOf(packs[i].count) == k
      && packs[i].createdAt <= cutoff
  }

  /** Where the small packs of tier k stand whose time, cut off at 64 bits, has come. */
  function Due(packs: seq<LivePack>, quarantined: set<string>, now: int, kn: Knobs, k: nat): set<nat> {
    set i: nat | i < |packs| && DueAt(packs[i], quarantined, now, kn, k)
  }

  predicate DueAt(p: LivePack, quarantined: set<string>, now: int, kn: Knobs, k: nat) {
    Small(p, quarantined, kn) && TierOf(p.count) == k && Saturate(p.createdAt + kn.minAge) <= now
  }

  ghost predicate Enough(packs: seq<LivePack>, quarantined: set<string>, cutoff: int, kn: Knobs) {
    exists k: nat :: k < 5 && |Old(packs, quarantined, cutoff, kn, k)| >= kn.fanin
  }

  lemma {:induction false} OldCount(packs: seq<LivePack>, quarantined: set<string>, cutoff: int, kn: Knobs, k: nat)
    ensures |InTier(packs, quarantined, cutoff, kn, k)| == |Old(packs, quarantined, cutoff, kn, k)|
  {
    if packs != [] {
      var n := |packs| - 1;
      OldCount(packs[..n], quarantined, cutoff, kn, k);
      assert Old(packs, quarantined, cutoff, kn, k) == Old(packs[..n], quarantined, cutoff, kn, k)
        + if Eligible(packs[n], quarantined, cutoff, kn) && TierOf(packs[n].count) == k then {n} else {};
    }
  }

  lemma DueNext(packs: seq<LivePack>, quarantined: set<string>, now: int, kn: Knobs, k: nat)
    requires packs != []
    ensures var n := |packs| - 1;
      |Due(packs, quarantined, now, kn, k)| == |Due(packs[..n], quarantined, now, kn, k)|
      + if DueAt(packs[n], quarantined, now, kn, k) then 1 else 0
  {
    hide DueAt;
    var n := |packs| - 1;
    var all, init := Due(packs, quarantined, now, kn, k), Due(packs[..n], quarantined, now, kn, k);
    if DueAt(packs[n], quarantined, now, kn, k) {
      assert all == init + {n};
    } else {
      assert all == init;
    }
  }

  lemma SmallIsFit(p: LivePack, quarantined: set<string>, kn: Knobs)
    ensures Small(p, quarantined, kn) <==> Fit(p, quarantined, kn)
  {
  }

  lemma {:induction false} DueCount(packs: seq<LivePack>, quarantined: set<string>, now: int, kn: Knobs, k: nat)
    ensures UpTo(Ages(packs, quarantined, kn, k), now) == |Due(packs, quarantined, now, kn, k)|
  {
    hide TierOf, Saturate, Due, Fit, Small;
    if packs == [] {
      NoneDue(quarantined, now, kn, k);
    } else {
      var n := |packs| - 1;
      var init, p := packs[..n], packs[n];
      DueCount(init, quarantined, now, kn, k);
      DueNext(packs, quarantined, now, kn, k);
      SmallIsFit(p, quarantined, kn);
      if Fit(p, quarantined, kn) && TierOf(p.count) == k {
        UpToSnoc(Ages(init, quarantined, kn, k), Saturate(p.createdAt + kn.minAge), now);
      } else {
        assert Ages(packs, quarantined, kn, k) == Ages(init, quarantined, kn, k);
      }
    }
  }

  lemma NoneDue(quarantined: set<string>, now: int, kn: Knobs, k: nat)
    ensures Due([], quarantined, now, kn, k) == {}
  {
  }

  lemma {:induction false} InTierAll(packs: seq<LivePack>, quarantined: set<string>, cutoff: int, kn: Knobs, k: nat,
                                     i: nat)
    requires i in Old(packs, quarantined, cutoff, kn, k)
    ensures packs[i] in InTier(packs, quarantined, cutoff, kn, k)
  {
    var n := |packs| - 1;
    if i < n { InTierAll(packs[..n], quarantined, cutoff, kn, k, i); }
  }

  /** Some tier holds at least the fan-in of eligible packs. */
  ghost predicate Ripe(packs: seq<LivePack>, quarantined: set<string>, now: int, kn: Knobs) {
    exists k :: 0 <= k < TIERS && |InTier(packs, quarantined, Cutoff(now, kn), kn, k)| >= kn.fanin
  }

  predicate In64(x: int) {
    MIN64 <= x <= MAX64
  }

  /** A pack created at x is of age at `now`, as `select_cohort` and as `next_wake` have it. */
  predicate OfAge(x: int, now: int, age: int) {
    x <= Saturate(now - age)
  }

  predicate AgeCome(x: int, now: int, age: int) {
    Saturate(x + age) <= now
  }

  /** The age is passed, or neither sum or both are cut off at an end of the 64-bit range. */
  predicate Steady(x: int, now: int, age: int) {
    age < 0 || x + age <= now || (x == MIN64 <==> now == MAX64)
  }

  /** For one pack the two agree exactly then. */
  lemma SteadyIff(x: int, now: int, age: int)
    requires In64(x) && In64(now) && In64(age)
    ensures (OfAge(x, now, age) <==> AgeCome(x, now, age)) <==> Steady(x, now, age)
  {
  }

  /** No fit pack's age is cut off on one side only. */
  ghost predicate AllSteady(packs: seq<LivePack>, quarantined: set<string>, now: int, kn: Knobs) {
    && In64(now) && In64(kn.minAge)
    && forall i :: 0 <= i < |packs| && Fit(packs[i], quarantined, kn) ==>
         In64(packs[i].createdAt) && Steady(packs[i].createdAt, now, kn.minAge)
  }

  // ---- counting ---------------------------------------------------------------------

  function UpTo(v: seq<int>, x: int): nat {
    if v == [] then 0 else UpTo(v[..|v| - 1], x) + if v[|v| - 1] <= x then 1 else 0
  }

  lemma UpToSnoc(v: seq<int>, y: int, x: int)
    ensures UpTo(v + [y], x) == UpTo(v, x) + if y <= x then 1 else 0
  {
    assert (v + [y])[..|v|] == v;
  }

  /** The packs of age by `now` are those whose age-time is not after it. */
  lemma {:induction false} AgedCount(packs: seq<LivePack>, quarantined: set<string>, now: int, kn: Knobs, k: nat)
    requires AllSteady(packs, quarantined, now, kn)
    ensures |InTier(packs, quarantined, Cutoff(now, kn), kn, k)| == UpTo(Ages(packs, quarantined, kn, k), now)
  {
    if packs != [] {
      var init, p := packs[..|packs| - 1], packs[|packs| - 1];
      AgedCount(init, quarantined, now, kn, k);
      if Fit(p, quarantined, kn) && TierOf(p.count) == k {
        SteadyIff(p.createdAt, now, kn.minAge);
        UpToSnoc(Ages(init, quarantined, kn, k), Saturate(p.createdAt + kn.minAge), now);
      } else {
        assert Ages(packs, quarantined, kn, k) == Ages(init, quarantined, kn, k);
      }
    }
  }

  ghost predicate Sorted(v: seq<int>) {
    forall i, j :: 0 <= i < j < |v| ==> v[i] <= v[j]
  }

  /** In sorted order, the n-th value is not after x exactly when n values are not. */
  lemma {:induction false} NthUpTo(v: seq<int>, n: nat, x: int)
    requires Sorted(v) && 1 <= n
    ensures UpTo(v, x) <= |v|
    ensures UpTo(v, x) >= n <==> n <= |v| && v[n - 1] <= x
  {
    if v != [] {
      NthUpTo(v[..|v| - 1], n, x);
      if n == |v| { AllUpTo(v[..|v| - 1], x); }
    }
  }

  lemma {:induction false} AllUpTo(v: seq<int>, x: int)
    requires Sorted(v)
    ensures UpTo(v, x) <= |v|
    ensures v != [] && v[|v| - 1] <= x ==> UpTo(v, x) == |v|
  {
    if v != [] {
      AllUpTo(v[..|v| - 1], x);
    }
  }

  /** Insert in order. */
  method InsertAge(v: seq<int>, y: int) returns (r: seq<int>)
    requires Sorted(v)
    ensures Sorted(r) && |r| == |v| + 1 && forall x :: UpTo(r, x) == UpTo(v, x) + if y <= x then 1 else 0
  {
    var i := |v|;
    while i > 0 && v[i - 1] > y
      invariant 0 <= i <= |v| && forall j :: i <= j < |v| ==> v[j] > y
    {
      i := i - 1;
    }
    r := v[..i] + [y] + v[i..];
    forall x ensures UpTo(r, x) == UpTo(v, x) + if y <= x then 1 else 0 {
      UpToInsert(v, i, y, x);
    }
  }

  lemma UpToInsert(v: seq<int>, i: nat, y: int, x: int)
    requires i <= |v|
    ensures UpTo(v[..i] + [y] + v[i..], x) == UpTo(v, x) + if y <= x then 1 else 0
  {
    UpToSplit(v[..i] + [y], v[i..], x);
    UpToSnoc(v[..i], y, x);
    UpToSplit(v[..i], v[i..], x);
    assert v[..i] + v[i..] == v;
  }

  lemma {:induction false} UpToSplit(a: seq<int>, b: seq<int>, x: int)
    ensures UpTo(a + b, x) == UpTo(a, x) + UpTo(b, x)
  {
    if b == [] {
      assert a + b == a;
    } else {
      assert (a + b)[..|a + b| - 1] == a + b[..|b| - 1];
      UpToSplit(a, b[..|b| - 1], x);
    }
  }

  method SortAges(v: seq<int>) returns (r: seq<int>)
    ensures Sorted(r) && |r| == |v| && forall x :: UpTo(r, x) == UpTo(v, x)
  {
    r := [];
    for i := 0 to |v|
      invariant Sorted(r) && |r| == i && forall x :: UpTo(r, x) == UpTo(v[..i], x)
    {
      assert v[..i + 1] == v[..i] + [v[i]];
      forall x ensures UpTo(v[..i + 1], x) == UpTo(v[..i], x) + if v[i] <= x then 1 else 0 {
        UpToSnoc(v[..i], v[i], x);
      }
      r := InsertAge(r, v[i]);
    }
    assert v[..|v|] == v;
  }

  // ---- next_wake --------------------------------------------------------------------

  /** The fit packs' age-times, sorted into their tiers. */
  method AgesByTier(packs: seq<LivePack>, quarantined: set<string>, kn: Knobs) returns (times: seq<seq<int>>)
    ensures |times| == TIERS && forall k :: 0 <= k < TIERS ==> times[k] == Ages(packs, quarantined, kn, k)
  {
    times := [[], [], [], [], []];
    for i := 0 to |packs|
      invariant |times| == TIERS && forall k :: 0 <= k < TIERS ==> times[k] == Ages(packs[..i], quarantined, kn, k)
    {
      var p := packs[i];
      assert packs[..i + 1][..i] == packs[..i];
      if Fit(p, quarantined, kn) {
        var t := Tier(p.count);
        times := times[t := times[t] + [Saturate(p.createdAt + kn.minAge)]];
      }
    }
    assert packs[..|packs|] == packs;
  }

  /** By their age-times, tier k holds the fan-in at `now`. */
  ghost predicate Full(packs: seq<LivePack>, quarantined: set<string>, now: int, kn: Knobs, k: nat) {
    UpTo(Ages(packs, quarantined, kn, k), now) >= kn.fanin
  }

  ghost predicate Come(wake: Option<int>, now: int) {
    wake.Some? && wake.value <= now
  }

  ghost predicate FullBelow(packs: seq<LivePack>, quarantined: set<string>, now: int, kn: Knobs, n: nat) {
    exists k: nat :: k < n && Full(packs, quarantined, now, kn, k)
  }

  lemma RipeIsFull(packs: seq<LivePack>, quarantined: set<string>, now: int, kn: Knobs)
    requires AllSteady(packs, quarantined, now, kn)
    ensures Ripe(packs, quarantined, now, kn) <==> FullBelow(packs, quarantined, now, kn, TIERS)
  {
    forall k: nat | k < TIERS
      ensures |InTier(packs, quarantined, Cutoff(now, kn), kn, k)| >= kn.fanin <==> Full(packs, quarantined, now, kn, k)
    {
      AgedCount(packs, quarantined, now, kn, k);
    }
  }

  lemma FullIsDue(packs: seq<LivePack>, quarantined: set<string>, now: int, kn: Knobs)
    ensures FullBelow(packs, quarantined, now, kn, TIERS) <==>
      exists k: nat :: k < 5 && |Due(packs, quarantined, now, kn, k)| >= kn.fanin
  {
    forall k: nat ensures Full(packs, quarantined, now, kn, k) <==> |Due(packs, quarantined, now, kn, k)| >= kn.fanin {
      DueCount(packs, quarantined, now, kn, k);
    }
  }

  /** The earliest moment a tier reaches the fan-in by its packs' age-times; where no age is
      cut off on one side only, it has come exactly when a tier is ripe. */
  method NextWake(packs: seq<LivePack>, quarantined: set<string>, kn: Knobs) returns (wake: Option<int>)
    requires KnobsOk(kn)
    ensures forall now :: Come(wake, now) <==> FullBelow(packs, quarantined, now, kn, TIERS)
    ensures forall now :: Come(wake, now) <==>
      exists k: nat :: k < 5 && |Due(packs, quarantined, now, kn, k)| >= kn.fanin
    ensures forall now :: AllSteady(packs, quarantined, now, kn) ==>
      (Come(wake, now) <==> Ripe(packs, quarantined, now, kn))
  {
    var times := AgesByTier(packs, quarantined, kn);
    wake := None;
    for k := 0 to TIERS
      invariant forall now :: Come(wake, now) <==> FullBelow(packs, quarantined, now, kn, k)
    {
      var v := SortAges(times[k]);
      ghost var was := wake;
      if kn.fanin <= |v| && (wake.None? || v[kn.fanin - 1] < wake.value) {
        wake := Some(v[kn.fanin - 1]);
      }
      forall now ensures Come(wake, now) <==> FullBelow(packs, quarantined, now, kn, k + 1) {
        NthUpTo(v, kn.fanin, now);
        assert Come(was, now) <==> FullBelow(packs, quarantined, now, kn, k);
        assert Full(packs, quarantined, now, kn, k) <==> kn.fanin <= |v| && v[kn.fanin - 1] <= now;
        if FullBelow(packs, quarantined, now, kn, k + 1) && !Full(packs, quarantined, now, kn, k) {
          var j: nat :| j < k + 1 && Full(packs, quarantined, now, kn, j);
          assert j < k;
        }
      }
    }
    forall now ensures Come(wake, now) <==>
      exists k: nat :: k < 5 && |Due(packs, quarantined, now, kn, k)| >= kn.fanin
    {
      FullIsDue(packs, quarantined, now, kn);
    }
    forall now | AllSteady(packs, quarantined, now, kn) ensures Come(wake, now) <==> Ripe(packs, quarantined, now, kn) {
      RipeIsFull(packs, quarantined, now, kn);
    }
  }

  // ---- select_cohort ----------------------------------------------------------------

  predicate StringLe(a: string, b: string) {
    a == [] || (b != [] && (a[0] < b[0] || (a[0] == b[0] && StringLe(a[1..], b[1..]))))
  }

  lemma {:induction false} StringTotal(a: string, b: string)
    ensures StringLe(a, b) || StringLe(b, a)
  {
    if a != [] && b != [] && a[0] == b[0] { StringTotal(a[1..], b[1..]); }
  }

  lemma {:induction false} StringTrans(a: string, b: string, c: string)
    requires StringLe(a, b) && StringLe(b, c)
    ensures StringLe(a, c)
  {
    if a != [] && a[0] == b[0] == c[0] { StringTrans(a[1..], b[1..], c[1..]); }
  }

  /** The order (created_at, id). */
  predicate Older(a: LivePack, b: LivePack) {
    a.createdAt < b.createdAt || (a.createdAt == b.createdAt && StringLe(a.id, b.id))
  }

  ghost predicate Arranged<T>(le: (T, T) -> bool, v: seq<T>) {
    forall i, j :: 0 <= i < j < |v| ==> le(v[i], v[j])
  }

  ghost predicate ByAge(v: seq<LivePack>) {
    Arranged(Older, v)
  }

  lemma OlderTrans(a: LivePack, b: LivePack, c: LivePack)
    requires Older(a, b) && Older(b, c)
    ensures Older(a, c)
  {
    if a.createdAt == b.createdAt == c.createdAt { StringTrans(a.id, b.id, c.id); }
  }

  method InsertByAge(v: seq<LivePack>, y: LivePack) returns (r: seq<LivePack>)
    requires ByAge(v)
    ensures ByAge(r) && multiset(r) == multiset(v) + multiset{y}
  {
    var i := |v|;
    while i > 0 && !Older(v[i - 1], y)
      invariant 0 <= i <= |v| && forall j :: i <= j < |v| ==> Older(y, v[j])
    {
      StringTotal(v[i - 1].id, y.id);
      i := i - 1;
    }
    forall j | 0 <= j < i ensures Older(v[j], y) {
      if j < i - 1 { OlderTrans(v[j], v[i - 1], y); }
    }
    r := v[..i] + [y] + v[i..];
    Inserted(Older, v, i, y, r);
  }

  lemma Inserted<T>(le: (T, T) -> bool, v: seq<T>, i: nat, y: T, r: seq<T>)
    requires Arranged(le, v) && i <= |v| && r == v[..i] + [y] + v[i..]
    requires (forall j :: 0 <= j < i ==> le(v[j], y)) && (forall j :: i <= j < |v| ==> le(y, v[j]))
    ensures Arranged(le, r) && multiset(r) == multiset(v) + multiset{y}
  {
    assert v == v[..i] + v[i..];
  }

  method SortByAge(v: seq<LivePack>) returns (r: seq<LivePack>)
    ensures ByAge(r) && multiset(r) == multiset(v)
  {
    r := [];
    for i := 0 to |v|
      invariant ByAge(r) && multiset(r) == multiset(v[..i])
    {
      assert v[..i + 1] == v[..i] + [v[i]];
      r := InsertByAge(r, v[i]);
    }
    assert v[..|v|] == v;
  }

  function Rows(v: seq<LivePack>): int {
    if v == [] then 0 else Rows(v[..|v| - 1]) + v[|v| - 1].count
  }

  function Bytes(v: seq<LivePack>): int {
    if v == [] then 0 else Bytes(v[..|v| - 1]) + v[|v| - 1].bytes
  }

  /** The next pack of `v` after the first n does not fit. */
  predicate Overflows(v: seq<LivePack>, n: nat, kn: Knobs)
    requires n < |v|
  {
    n >= 2 * kn.fanin || Rows(v[..n]) + v[n].count > kn.maxRows || Bytes(v[..n]) + v[n].bytes > COHORT_BYTES
  }

  /** The longest prefix within the budgets. */
  method TakeOldest(v: seq<LivePack>, kn: Knobs) returns (out: seq<LivePack>)
    requires kn.maxRows >= 0
    ensures out <= v && |out| <= 2 * kn.fanin && Rows(out) <= kn.maxRows && Bytes(out) <= COHORT_BYTES
    ensures |out| < |v| ==> Overflows(v, |out|, kn)
  {
    var rows, bytes := 0, 0;
    out := [];
    for i := 0 to |v|
      invariant out == v[..i] && rows == Rows(out) <= kn.maxRows && bytes == Bytes(out) <= COHORT_BYTES
      invariant i <= 2 * kn.fanin
    {
      var p := v[i];
      if |out| >= 2 * kn.fanin || rows + p.count > kn.maxRows || bytes + p.bytes > COHORT_BYTES { return; }
      assert (out + [p])[..i] == out;
      rows, bytes, out := rows + p.count, bytes + p.bytes, out + [p];
    }
  }

  /** The fullest tier with at least the fan-in, the lowest of equals. */
  ghost predicate Best(packs: seq<LivePack>, quarantined: set<string>, now: int, kn: Knobs, k: nat) {
    && k < TIERS && |InTier(packs, quarantined, Cutoff(now, kn), kn, k)| >= kn.fanin
    && forall j: nat :: j < TIERS ==>
      && |InTier(packs, quarantined, Cutoff(now, kn), kn, j)| <= |InTier(packs, quarantined, Cutoff(now, kn), kn, k)|
      && (j < k ==>
           |InTier(packs, quarantined, Cutoff(now, kn), kn, j)| < |InTier(packs, quarantined, Cutoff(now, kn), kn, k)|)
  }

  method PacksByTier(packs: seq<LivePack>, quarantined: set<string>, cutoff: int, kn: Knobs)
    returns (tiers: seq<seq<LivePack>>)
    ensures |tiers| == TIERS && forall k :: 0 <= k < TIERS ==> tiers[k] == InTier(packs, quarantined, cutoff, kn, k)
  {
    tiers := [[], [], [], [], []];
    for i := 0 to |packs|
      invariant |tiers| == TIERS
      invariant forall k :: 0 <= k < TIERS ==> tiers[k] == InTier(packs[..i], quarantined, cutoff, kn, k)
    {
      var p := packs[i];
      assert packs[..i + 1][..i] == packs[..i];
      if Eligible(p, quarantined, cutoff, kn) {
        var t := Tier(p.count);
        tiers := tiers[t := tiers[t] + [p]];
      }
    }
    assert packs[..|packs|] == packs;
  }

  lemma {:induction false} InTierOk(packs: seq<LivePack>, quarantined: set<string>, cutoff: int, kn: Knobs, k: nat,
                                    p: LivePack)
    requires p in InTier(packs, quarantined, cutoff, kn, k)
    ensures p in packs && Eligible(p, quarantined, cutoff, kn) && TierOf(p.count) == k
  {
    var init := packs[..|packs| - 1];
    if p in InTier(init, quarantined, cutoff, kn, k) { InTierOk(init, quarantined, cutoff, kn, k, p); }
  }

  /** Two eligible packs always fit. */
  lemma TwoFit(v: seq<LivePack>, out: seq<LivePack>, kn: Knobs)
    requires KnobsOk(kn) && |v| >= 2 && out <= v && (|out| < |v| ==> Overflows(v, |out|, kn))
    requires v[0].count <= kn.maxRows / 2 && v[1].count <= kn.maxRows / 2 && v[0].bytes < MAX_BYTES
    requires v[1].bytes < MAX_BYTES
    requires v[0].count >= 1
    ensures |out| >= 2
  {
    assert v[..0] == [] && v[..1] == [v[0]] && [v[0]][..0] == [];
    assert Rows([v[0]]) == v[0].count && Bytes([v[0]]) == v[0].bytes;
  }

  lemma RipeIsOld(packs: seq<LivePack>, quarantined: set<string>, now: int, kn: Knobs)
    ensures Ripe(packs, quarantined, now, kn) <==>
      Enough(packs, quarantined, Saturate(now - kn.minAge), kn)
  {
    var cutoff := Cutoff(now, kn);
    forall j: nat ensures |InTier(packs, quarantined, cutoff, kn, j)| == |Old(packs, quarantined, cutoff, kn, j)| {
      OldCount(packs, quarantined, cutoff, kn, j);
    }
  }

  /** What a cohort is, by the packs alone: places of tier k that are old enough, in no fuller
      tier and no lower one as full; none left there is before one taken in (created_at, id)
      order; and it stops only at 2T packs or a budget. */
  ghost predicate Oldest(packs: seq<LivePack>, quarantined: set<string>, now: int, kn: Knobs, k: nat,
                         out: seq<LivePack>) {
    var c := Saturate(now - kn.minAge);
    && k < 5 && |Old(packs, quarantined, c, kn, k)| >= kn.fanin && 2 <= |out| <= 2 * kn.fanin
    && (forall j: nat :: j < 5 ==>
         && |Old(packs, quarantined, c, kn, j)| <= |Old(packs, quarantined, c, kn, k)|
         && (j < k ==> |Old(packs, quarantined, c, kn, j)| < |Old(packs, quarantined, c, kn, k)|))
    && (forall p :: p in out ==> exists i :: i in Old(packs, quarantined, c, kn, k) && packs[i] == p)
    && (forall i, p :: i in Old(packs, quarantined, c, kn, k) && packs[i] !in out && p in out ==>
         p.createdAt < packs[i].createdAt || (p.createdAt == packs[i].createdAt && StringLe(p.id, packs[i].id)))
  }

  lemma TakenAreOld(packs: seq<LivePack>, quarantined: set<string>, cutoff: int, kn: Knobs, k: nat, p: LivePack)
    requires p in InTier(packs, quarantined, cutoff, kn, k)
    ensures exists i :: i in Old(packs, quarantined, cutoff, kn, k) && packs[i] == p
  {
    hide TierOf;
    InTierOk(packs, quarantined, cutoff, kn, k, p);
    var i :| 0 <= i < |packs| && packs[i] == p;
    assert i in Old(packs, quarantined, cutoff, kn, k);
  }

  lemma LeftAreLater(s: seq<LivePack>, out: seq<LivePack>, p: LivePack, q: LivePack)
    requires ByAge(s) && out <= s && p in out && q in s && q !in out
    ensures Older(p, q)
  {
    hide Older;
    var a :| 0 <= a < |out| && out[a] == p;
    var b :| 0 <= b < |s| && s[b] == q;
    assert forall c :: 0 <= c < |out| ==> s[c] == out[c];
  }

  lemma OldestOf(packs: seq<LivePack>, quarantined: set<string>, now: int, kn: Knobs, k: nat, s: seq<LivePack>,
                 out: seq<LivePack>)
    requires Best(packs, quarantined, now, kn, k) && ByAge(s) && out <= s && 2 <= |out| <= 2 * kn.fanin
    requires multiset(s) == multiset(InTier(packs, quarantined, Cutoff(now, kn), kn, k))
    ensures Oldest(packs, quarantined, now, kn, k, out)
  {
    hide TierOf, Saturate, InTier, Old, Arranged, StringLe;
    var cutoff := Cutoff(now, kn);
    forall j: nat ensures |InTier(packs, quarantined, cutoff, kn, j)| == |Old(packs, quarantined, cutoff, kn, j)| {
      OldCount(packs, quarantined, cutoff, kn, j);
    }
    forall p | p in out ensures exists i :: i in Old(packs, quarantined, cutoff, kn, k) && packs[i] == p {
      assert p in multiset(s);
      TakenAreOld(packs, quarantined, cutoff, kn, k, p);
    }
    forall i, p | i in Old(packs, quarantined, cutoff, kn, k) && packs[i] !in out && p in out ensures Older(p, packs[i])
    {
      InTierAll(packs, quarantined, cutoff, kn, k, i);
      assert packs[i] in multiset(s);
      LeftAreLater(s, out, p, packs[i]);
    }
  }

  /** The cohort: 2 to 2T of the oldest packs of the fullest tier, within the budgets. There
      is one exactly when a tier is ripe. */
  method SelectCohort(packs: seq<LivePack>, quarantined: set<string>, now: int, kn: Knobs)
    returns (r: Option<seq<LivePack>>, ghost k: nat, ghost s: seq<LivePack>)
    requires KnobsOk(kn)
    ensures r.Some? <==> Ripe(packs, quarantined, now, kn)
    ensures r.Some? <==>
      Enough(packs, quarantined, Saturate(now - kn.minAge), kn)
    ensures r.Some? ==> Oldest(packs, quarantined, now, kn, k, r.value)
    ensures r.Some? ==>
      && Best(packs, quarantined, now, kn, k)
      && ByAge(s) && multiset(s) == multiset(InTier(packs, quarantined, Cutoff(now, kn), kn, k))
      && r.value <= s && (|r.value| < |s| ==> Overflows(s, |r.value|, kn))
      && 2 <= |r.value| <= 2 * kn.fanin && Rows(r.value) <= kn.maxRows && Bytes(r.value) <= COHORT_BYTES
    ensures r.Some? ==> forall p :: p in r.value ==>
      p in packs && Eligible(p, quarantined, Cutoff(now, kn), kn) && TierOf(p.count) == k
  {
    var cutoff := Cutoff(now, kn);
    var tiers := PacksByTier(packs, quarantined, cutoff, kn);
    var best: Option<nat> := None;
    for i := 0 to TIERS
      invariant best.None? ==> forall j :: 0 <= j < i ==> |tiers[j]| < kn.fanin
      invariant best.Some? ==>
        && best.value < i && |tiers[best.value]| >= kn.fanin
        && forall j :: 0 <= j < i ==>
             |tiers[j]| <= |tiers[best.value]| && (j < best.value ==> |tiers[j]| < |tiers[best.value]|)
    {
      if |tiers[i]| >= kn.fanin && (best.None? || |tiers[i]| > |tiers[best.value]|) {
        best := Some(i);
      }
    }
    RipeIsOld(packs, quarantined, now, kn);
    if best.None? { return None, 0, []; }
    k := best.value;
    var v := SortByAge(tiers[best.value]);
    s := v;
    forall p | p in v ensures p in packs && Eligible(p, quarantined, cutoff, kn) && TierOf(p.count) == k {
      assert p in multiset(v);
      InTierOk(packs, quarantined, cutoff, kn, k, p);
    }
    assert |v| == |multiset(v)| == |tiers[k]| by { assert |multiset(tiers[k])| == |tiers[k]|; }
    assert v[0] in v && v[1] in v;
    var out := TakeOldest(v, kn);
    TwoFit(v, out, kn);
    assert Best(packs, quarantined, now, kn, k);
    assert forall p :: p in out ==> p in v;
    OldestOf(packs, quarantined, now, kn, k, v, out);
    r := if |out| >= 2 then Some(out) else None;
  }

  /** At the last moment of the range a tier of packs that come of age past it is due, and
      never ripe. */
  lemma SaturatedFull(p: LivePack, q: LivePack, kn: Knobs)
    requires kn == Knobs(2, 1, 100) && p.createdAt == q.createdAt == MAX64 && Fit(p, {}, kn) && Fit(q, {}, kn)
    requires TierOf(p.count) == TierOf(q.count) == 0
    ensures FullBelow([p, q], {}, MAX64, kn, TIERS) && !Ripe([p, q], {}, MAX64, kn)
  {
    assert [p, q][..1] == [p] && [p][..0] == [];
    assert Ages([p], {}, kn, 0) == [MAX64];
    assert Ages([p, q], {}, kn, 0) == [MAX64, MAX64];
    assert [MAX64, MAX64][..1] == [MAX64];
    assert Full([p, q], {}, MAX64, kn, 0);
    forall k: nat ensures InTier([p, q], {}, Cutoff(MAX64, kn), kn, k) == [] {
      assert InTier([p], {}, Cutoff(MAX64, kn), kn, k) == [];
    }
  }

  /** So the two disagree on two packs of one object each. */
  method SaturationDisagrees() returns (wake: Option<int>, cohort: Option<seq<LivePack>>)
    ensures wake.Some? && wake.value <= MAX64 && cohort.None?
  {
    var p, q, kn := LivePack("p", 1, 1, MAX64), LivePack("q", 1, 1, MAX64), Knobs(2, 1, 100);
    SaturatedFull(p, q, kn);
    ghost var k, s;
    wake := NextWake([p, q], {}, kn);
    cohort, k, s := SelectCohort([p, q], {}, MAX64, kn);
    assert Come(wake, MAX64);
  }
}
