/**
 The daily percentile recalculation (src/modules/assessments/percentile-recalc.service.ts).
 Values and percentiles are in hundredths, as the columns store them; the rounding is on
 exact rationals, the EPSILON it adds included.
 */
module Percentiles {
  import opened Common

  type TestId = nat

  /** `testId` is absent when the score's attempt was not loaded. */
  datatype Score = Score(
    testId: Option<TestId>, value: int, percentile: Option<int>, expiresAt: Instant, plagiarismConfirmed: bool)

  /** 1 / Number.EPSILON */
  const INVERSE_EPSILON: int := 0x10_0000_0000_0000

  /** `Math.round((num / den + Number.EPSILON) * 100)`: the rounded value in hundredths. */
  function Round2(num: int, den: int): (r: int)
    requires den > 0
    ensures den * r * (2 * INVERSE_EPSILON)
            <= 200 * INVERSE_EPSILON * num + (200 + INVERSE_EPSILON) * den
            < den * r * (2 * INVERSE_EPSILON) + den * (2 * INVERSE_EPSILON)
  {
    var a, b := 200 * INVERSE_EPSILON * num + (200 + INVERSE_EPSILON) * den, den * (2 * INVERSE_EPSILON);
    DivisionBounds(a, b);
    a / b
  }

  function CountBelow(values: seq<int>, v: int): (n: nat)
    ensures n <= |values|
  {
    if values == [] then 0 else (if values[0] < v then 1 else 0) + CountBelow(values[1..], v)
  }

  /** `round2((below / cohortSize) * 100)` */
  function Percentile(below: nat, cohortSize: nat): int
    requires cohortSize > 0
  {
    Round2(100 * below, cohortSize)
  }

  function PercentileIn(values: seq<int>, v: int): int
    requires values != []
  {
    Percentile(CountBelow(values, v), |values|)
  }

  // ---- The formula ----

  lemma PercentileWindow(below: nat, size: nat, p: int)
    requires size > 0 && p == Percentile(below, size)
    ensures INVERSE_EPSILON * (2 * (size * p)) <= INVERSE_EPSILON * (20000 * below + size) + 200 * size
            < INVERSE_EPSILON * (2 * (size * p) + 2 * size)
  {
  }

  lemma TimesAtMost(size: nat, a: int, b: int)
    requires size > 0 && size * a < size * b
    ensures a < b
  {
    if a >= b {
      MulLe(size, b, a);
    }
  }

  lemma PercentileIsMonotone(below: nat, more: nat, size: nat)
    requires below <= more && size > 0
    ensures Percentile(below, size) <= Percentile(more, size)
  {
    var p, q := Percentile(below, size), Percentile(more, size);
    PercentileWindow(below, size, p);
    PercentileWindow(more, size, q);
    assert size * (q + 1) == size * q + size;
    TimesAtMost(size, p, q + 1);
  }

  lemma PercentileIsStrict(below: nat, more: nat, size: nat)
    requires below < more && 0 < size <= 10000
    ensures Percentile(below, size) < Percentile(more, size)
  {
    var p, q := Percentile(below, size), Percentile(more, size);
    PercentileWindow(below, size, p);
    PercentileWindow(more, size, q);
    TimesAtMost(size, p, q);
  }

  lemma NobodyBelowIsZero(size: nat)
    requires size > 0
    ensures Percentile(0, size) == 0
  {
    var zero := Percentile(0, size);
    PercentileWindow(0, size, zero);
    TimesAtMost(size, zero, 1);
    assert size * (zero + 1) == size * zero + size;
    TimesAtMost(size, 0, zero + 1);
  }

  lemma AllButOneBelow(size: nat)
    requires size > 0
    ensures Percentile(size - 1, size) <= 10000
    ensures Percentile(size - 1, size) < 10000 <==> size < 20000
  {
    var top := Percentile(size - 1, size);
    PercentileWindow(size - 1, size, top);
    TimesAtMost(size, top, 10001);
    if size < 20000 {
      TimesAtMost(size, top, 10000);
    } else {
      assert size * (top + 1) == size * top + size;
      TimesAtMost(size, 9999, top);
    }
  }

  lemma PercentileRange(below: nat, size: nat)
    requires below < size
    ensures 0 <= Percentile(below, size) <= 10000
    ensures Percentile(0, size) == 0
    ensures Percentile(size - 1, size) < 10000 <==> size < 20000
  {
    NobodyBelowIsZero(size);
    AllButOneBelow(size);
    PercentileIsMonotone(0, below, size);
    PercentileIsMonotone(below, size - 1, size);
  }

  lemma {:induction false} StepsAddUp(n: nat, size: nat)
    requires n < size && forall b :: 0 <= b < n ==> Percentile(b, size) != Percentile(b + 1, size)
    ensures Percentile(n, size) >= n
    decreases n
  {
    if n == 0 {
      PercentileRange(0, size);
    } else {
      StepsAddUp(n - 1, size);
      PercentileIsMonotone(n - 1, n, size);
    }
  }

  ghost predicate Separates(size: nat) {
    forall b :: 0 <= b < size - 1 ==> Percentile(b, size) != Percentile(b + 1, size)
  }

  /** Two decimals are enough to tell neighbouring ranks apart exactly in cohorts of at most ten thousand. */
  lemma RoundingSeparatesIff(size: nat)
    requires size > 0
    ensures Separates(size) <==> size <= 10000
  {
    if size <= 10000 {
      forall b | 0 <= b < size - 1
        ensures Percentile(b, size) != Percentile(b + 1, size)
      {
        PercentileIsStrict(b, b + 1, size);
      }
    } else if Separates(size) {
      StepsAddUp(size - 1, size);
      PercentileRange(size - 1, size);
    }
  }

  lemma StoredPercentileIsRounded(p: int)
    ensures Round2(p, 100) == p
  {
  }

  // ---- Ranks depend on the values alone ----

  lemma {:induction false} CountBelowByOccurrences(values: seq<int>, v: int, k: nat)
    requires k < |values|
    ensures CountBelow(values, v) == CountBelow(values[..k] + values[k + 1..], v) + if values[k] < v then 1 else 0
  {
    var less := values[..k] + values[k + 1..];
    if k == 0 {
      assert less == values[1..];
    } else {
      CountBelowByOccurrences(values[1..], v, k - 1);
      assert less[1..] == values[1..][..k - 1] + values[1..][k..];
      assert less[0] == values[0] && values[1..][k - 1] == values[k];
    }
  }

  lemma WithoutOne(s: seq<int>, k: nat)
    requires k < |s|
    ensures multiset(s[..k] + s[k + 1..]) == multiset(s) - multiset{s[k]}
  {
    assert s == s[..k] + ([s[k]] + s[k + 1..]);
  }

  lemma {:induction false} PlaceOf(s: seq<int>, x: int) returns (k: nat)
    requires multiset(s)[x] > 0
    ensures k < |s| && s[k] == x
  {
    if s[0] == x {
      return 0;
    }
    assert s == [s[0]] + s[1..];
    var rest := PlaceOf(s[1..], x);
    return rest + 1;
  }

  lemma MatchFirst(a: seq<int>, b: seq<int>) returns (k: nat)
    requires multiset(a) == multiset(b) && a != []
    ensures k < |b| && b[k] == a[0]
    ensures multiset(a[1..]) == multiset(b[..k] + b[k + 1..])
  {
    k := PlaceOf(b, a[0]);
    WithoutOne(a, 0);
    WithoutOne(b, k);
    assert a[1..] == a[..0] + a[1..];
  }

  /** The order in which a cohort was loaded does not matter. */
  lemma {:induction false} CountBelowOfPermutation(a: seq<int>, b: seq<int>, v: int)
    requires multiset(a) == multiset(b)
    ensures CountBelow(a, v) == CountBelow(b, v)
  {
    if a == [] {
      assert |multiset(b)| == 0;
    } else {
      var k := MatchFirst(a, b);
      CountBelowOfPermutation(a[1..], b[..k] + b[k + 1..], v);
      CountBelowByOccurrences(b, v, k);
    }
  }

  lemma {:induction false} HigherValueCountsMore(values: seq<int>, v: int, w: int)
    requires v <= w
    ensures CountBelow(values, v) <= CountBelow(values, w)
    ensures v < w && v in values ==> CountBelow(values, v) < CountBelow(values, w)
  {
    if values != [] {
      HigherValueCountsMore(values[1..], v, w);
    }
  }

  lemma {:induction false} NothingBelowTheLowest(values: seq<int>, v: int)
    requires forall i :: 0 <= i < |values| ==> v <= values[i]
    ensures CountBelow(values, v) == 0
  {
    if values != [] {
      NothingBelowTheLowest(values[1..], v);
    }
  }

  /** Ranking keeps the order of the scores, strictly up to ten thousand of them; the lowest get 0. */
  lemma RankingKeepsOrder(values: seq<int>, v: int, w: int)
    requires v in values && w in values && v <= w
    ensures PercentileIn(values, v) <= PercentileIn(values, w)
    ensures v < w && |values| <= 10000 ==> PercentileIn(values, v) < PercentileIn(values, w)
    ensures (forall i :: 0 <= i < |values| ==> v <= values[i]) ==> PercentileIn(values, v) == 0
    ensures |values| < 20000 ==> PercentileIn(values, w) < 10000
  {
    HigherValueCountsMore(values, v, w);
    PercentileIsMonotone(CountBelow(values, v), CountBelow(values, w), |values|);
    if v < w && |values| <= 10000 {
      PercentileIsStrict(CountBelow(values, v), CountBelow(values, w), |values|);
    }
    if forall i :: 0 <= i < |values| ==> v <= values[i] {
      NothingBelowTheLowest(values, v);
    }
    NotAllBelow(values, w);
    PercentileRange(CountBelow(values, w), |values|);
    PercentileIsMonotone(CountBelow(values, w), |values| - 1, |values|);
  }

  lemma {:induction false} NotAllBelow(values: seq<int>, w: int)
    requires w in values
    ensures CountBelow(values, w) < |values|
  {
    if values[0] != w {
      NotAllBelow(values[1..], w);
    }
  }

  // ---- The recalculation ----

  predicate IsActive(s: Score, now: Instant) {
    s.expiresAt > now && !s.plagiarismConfirmed
  }

  predicate InCohort(s: Score, test: TestId, now: Instant) {
    IsActive(s, now) && s.testId == Some(test)
  }

  /** The positions of a cohort's scores, in table order. */
  function Cohort(scores: seq<Score>, test: TestId, now: Instant): (ids: seq<nat>)
    ensures forall k :: 0 <= k < |ids| ==> ids[k] < |scores| && InCohort(scores[ids[k]], test, now)
    ensures forall i :: 0 <= i < |scores| && InCohort(scores[i], test, now) ==> i in ids
    ensures NoDup(ids)
  {
    if scores == [] then []
    else
      var n := |scores| - 1;
      assert forall i :: 0 <= i < n ==> scores[..n][i] == scores[i];
      Cohort(scores[..n], test, now) + if InCohort(scores[n], test, now) then [n] else []
  }

  function ValuesOf(scores: seq<Score>, ids: seq<nat>): (vs: seq<int>)
    requires forall k :: 0 <= k < |ids| ==> ids[k] < |scores|
    ensures |vs| == |ids|
  {
    seq(|ids|, k requires 0 <= k < |ids| => scores[ids[k]].value)
  }

  /** A score as the sweep leaves it. */
  function Ranked(scores: seq<Score>, i: nat, now: Instant): Score
    requires i < |scores|
  {
    var s := scores[i];
    if IsActive(s, now) && s.testId.Some? then
      var ids := Cohort(scores, s.testId.value, now);
      assert i in ids;
      s.(percentile := Some(PercentileIn(ValuesOf(scores, ids), s.value)))
    else s
  }

  function Recalculated(scores: seq<Score>, now: Instant): (r: seq<Score>)
    ensures |r| == |scores|
  {
    seq(|scores|, i requires 0 <= i < |scores| => Ranked(scores, i, now))
  }

  ghost function ChangedRows(before: seq<Score>, after: seq<Score>): set<nat>
    requires |before| == |after|
  {
    set i | 0 <= i < |before| && before[i] != after[i]
  }

  lemma {:induction false} CohortIgnoresPercentiles(a: seq<Score>, b: seq<Score>, test: TestId, now: Instant)
    requires |a| == |b| && forall i :: 0 <= i < |a| ==> b[i] == a[i].(percentile := b[i].percentile)
    ensures Cohort(a, test, now) == Cohort(b, test, now)
    ensures ValuesOf(a, Cohort(a, test, now)) == ValuesOf(b, Cohort(b, test, now))
  {
    if a != [] {
      CohortIgnoresPercentiles(a[..|a| - 1], b[..|b| - 1], test, now);
    }
  }

  lemma RankedIgnoresPercentiles(a: seq<Score>, b: seq<Score>, i: nat, now: Instant)
    requires |a| == |b| && forall i :: 0 <= i < |a| ==> b[i] == a[i].(percentile := b[i].percentile)
    requires i < |a|
    ensures IsActive(a[i], now) && a[i].testId.Some? ==> Ranked(b, i, now) == Ranked(a, i, now)
  {
    if a[i].testId.Some? {
      CohortIgnoresPercentiles(a, b, a[i].testId.value, now);
    }
  }

  /** The sweep is idempotent: run again over an unchanged population it updates nothing. */
  lemma SecondSweepChangesNothing(scores: seq<Score>, now: Instant)
    ensures Recalculated(Recalculated(scores, now), now) == Recalculated(scores, now)
    ensures ChangedRows(Recalculated(scores, now), Recalculated(Recalculated(scores, now), now)) == {}
  {
    var once := Recalculated(scores, now);
    forall i | 0 <= i < |scores|
      ensures Ranked(once, i, now) == once[i]
    {
      RankedIgnoresPercentiles(scores, once, i, now);
    }
  }

  // ---- The loops ----

  /** One bucket for each test whose list is not empty, holding that list; `tests` are the keys, each once. */
  ghost predicate Buckets(tests: seq<TestId>, cohorts: map<TestId, seq<nat>>, lists: TestId -> seq<nat>) {
    && NoDup(tests)
    && (forall t :: t in cohorts <==> t in tests)
    && (forall t :: t in cohorts <==> lists(t) != [])
    && (forall t :: t in cohorts ==> cohorts[t] == lists(t))
  }

  ghost function Cohorts(scores: seq<Score>, now: Instant): TestId -> seq<nat> {
    t => Cohort(scores, t, now)
  }

  ghost predicate Grouped(scores: seq<Score>, tests: seq<TestId>, cohorts: map<TestId, seq<nat>>, now: Instant) {
    Buckets(tests, cohorts, Cohorts(scores, now))
  }

  lemma NothingGrouped(now: Instant)
    ensures Grouped([], [], map[], now)
  {
  }

  lemma CohortOfLonger(scores: seq<Score>, score: Score, t: TestId, now: Instant)
    ensures Cohort(scores + [score], t, now) == Cohort(scores, t, now) + if InCohort(score, t, now)
        then [|scores|] else []
  {
    assert (scores + [score])[..|scores|] == scores;
  }

  lemma GroupingSkips(scores: seq<Score>, score: Score, tests: seq<TestId>,
          cohorts: map<TestId, seq<nat>>, now: Instant)
    requires Grouped(scores, tests, cohorts, now) && !(IsActive(score, now) && score.testId.Some?)
    ensures Grouped(scores + [score], tests, cohorts, now)
  {
    forall t
      ensures Cohort(scores + [score], t, now) == Cohort(scores, t, now)
    {
      CohortOfLonger(scores, score, t, now);
    }
  }

  lemma BucketFilled(tests: seq<TestId>, cohorts: map<TestId, seq<nat>>, before: TestId -> seq<nat>,
          after: TestId -> seq<nat>, test: TestId, n: nat)
    requires Buckets(tests, cohorts, before) && test in cohorts
    requires forall t :: after(t) == if t == test then before(t) + [n] else before(t)
    ensures Buckets(tests, cohorts[test := cohorts[test] + [n]], after)
  {
  }

  lemma BucketOpened(tests: seq<TestId>, cohorts: map<TestId, seq<nat>>, before: TestId -> seq<nat>,
          after: TestId -> seq<nat>, test: TestId, n: nat)
    requires Buckets(tests, cohorts, before) && test !in cohorts
    requires forall t :: after(t) == if t == test then before(t) + [n] else before(t)
    ensures Buckets(tests + [test], cohorts[test := [n]], after)
  {
    assert before(test) == [];
  }

  lemma CohortsAfterAdding(scores: seq<Score>, score: Score, test: TestId, now: Instant)
    requires InCohort(score, test, now)
    ensures var before, after := Cohorts(scores, now), Cohorts(scores + [score], now);
            forall t :: after(t) == if t == test then before(t) + [|scores|] else before(t)
  {
    forall t
      ensures Cohort(scores + [score], t, now)
              == if t == test then Cohort(scores, t, now) + [|scores|] else Cohort(scores, t, now)
    {
      CohortOfLonger(scores, score, t, now);
    }
  }

  /** The sweep so far: the rows in `done` are ranked, the others are as they were. */
  ghost predicate Swept(scores: seq<Score>, before: seq<Score>, done: set<nat>, now: Instant) {
    && |scores| == |before|
    && forall i :: 0 <= i < |before| ==> scores[i] == if i in done then Ranked(before, i, now) else before[i]
  }

  ghost function Changes(before: seq<Score>, done: set<nat>, now: Instant): set<nat> {
    set i | i in done && i < |before| && Ranked(before, i, now) != before[i]
  }

  lemma RankedInCohort(before: seq<Score>, id: nat, test: TestId, now: Instant)
    requires id < |before| && InCohort(before[id], test, now)
    ensures Cohort(before, test, now) != []
    ensures Ranked(before, id, now)
            == before[id].(percentile := Some(PercentileIn(ValuesOf(before, Cohort(before, test, now)),
                before[id].value)))
  {
  }

  lemma SweptValues(scores: seq<Score>, before: seq<Score>, done: set<nat>, now: Instant, ids: seq<nat>)
    requires Swept(scores, before, done, now) && forall k :: 0 <= k < |ids| ==> ids[k] < |before|
    ensures |scores| == |before| && ValuesOf(scores, ids) == ValuesOf(before, ids)
  {
    forall k | 0 <= k < |ids|
      ensures scores[ids[k]].value == before[ids[k]].value
    {
      assert Ranked(before, ids[k], now).value == before[ids[k]].value;
    }
  }

  ghost function Positions(cohort: seq<nat>, n: nat): set<nat>
    requires n <= |cohort|
  {
    set k | 0 <= k < n :: cohort[k]
  }

  lemma NextPosition(cohort: seq<nat>, n: nat)
    requires NoDup(cohort) && n < |cohort|
    ensures Positions(cohort, n + 1) == Positions(cohort, n) + {cohort[n]}
    ensures cohort[n] !in Positions(cohort, n)
  {
  }

  lemma SweptMore(scores: seq<Score>, before: seq<Score>, done: set<nat>, id: nat, now: Instant)
    requires Swept(scores, before, done, now) && id < |before|
    ensures Swept(scores[id := Ranked(before, id, now)], before, done + {id}, now)
    ensures id !in done ==> scores[id] == before[id]
  {
    hide Ranked;
  }

  lemma ChangesMore(before: seq<Score>, done: set<nat>, id: nat, now: Instant)
    requires id !in done && id < |before|
    ensures |Changes(before, done + {id}, now)|
            == |Changes(before, done, now)| + if Ranked(before, id, now) != before[id] then 1 else 0
  {
    hide Ranked;
    assert Changes(before, done + {id}, now)
           == Changes(before, done, now) + if Ranked(before, id, now) != before[id] then {id} else {};
    assert id !in Changes(before, done, now);
  }

  /** One row of the sweep: after the row holds its rank, it is done, and counts as a change exactly when it moved. */
  lemma SweepOne(scores: seq<Score>, before: seq<Score>, done: set<nat>, id: nat, test: TestId,
          values: seq<int>, now: Instant)
    requires Swept(scores, before, done, now) && id !in done && id < |before| && InCohort(before[id], test, now)
    requires values == ValuesOf(before, Cohort(before, test, now)) != []
    ensures scores[id] == before[id]
    ensures Ranked(before, id, now) == scores[id].(percentile := Some(PercentileIn(values, scores[id].value)))
    ensures Swept(scores[id := Ranked(before, id, now)], before, done + {id}, now)
    ensures |Changes(before, done + {id}, now)|
            == |Changes(before, done, now)| + if Ranked(before, id, now) != scores[id] then 1 else 0
  {
    hide Ranked, Swept, Changes, ValuesOf, PercentileIn;
    SweptMore(scores, before, done, id, now);
    ChangesMore(before, done, id, now);
    RankedInCohort(before, id, test, now);
  }

  /** Skipping a row whose stored percentile already equals the new one leaves it as its rank. */
  lemma SkipsExactlyTheUnchanged(score: Score, percentile: int)
    ensures (score.percentile.Some? && Round2(score.percentile.value, 100) == percentile)
            <==> score == score.(percentile := Some(percentile))
  {
    if score.percentile.Some? {
      StoredPercentileIsRounded(score.percentile.value);
    }
  }

  /** Row i belongs to the cohort of one of the first n tests. */
  ghost predicate Covered(before: seq<Score>, i: nat, tests: seq<TestId>, n: nat, now: Instant)
    requires n <= |tests|
  {
    i < |before| && exists k :: 0 <= k < n && InCohort(before[i], tests[k], now)
  }

  ghost predicate CoversFirst(before: seq<Score>, done: set<nat>, tests: seq<TestId>, n: nat, now: Instant)
    requires n <= |tests|
  {
    forall i: nat :: i in done <==> Covered(before, i, tests, n, now)
  }

  lemma CohortIsNew(before: seq<Score>, done: set<nat>, tests: seq<TestId>, n: nat, now: Instant)
    requires n < |tests| && NoDup(tests) && CoversFirst(before, done, tests, n, now)
    ensures forall i :: i in done ==> i !in Cohort(before, tests[n], now)
  {
    forall i | i in done
      ensures i !in Cohort(before, tests[n], now)
    {
      var k :| 0 <= k < n && InCohort(before[i], tests[k], now);
      assert tests[k] != tests[n];
    }
  }

  lemma CoverageGrows(before: seq<Score>, done: set<nat>, tests: seq<TestId>, n: nat, now: Instant, cohort: seq<nat>)
    requires n < |tests| && CoversFirst(before, done, tests, n, now) && cohort == Cohort(before, tests[n], now)
    ensures CoversFirst(before, done + Positions(cohort, |cohort|), tests, n + 1, now)
  {
    forall i: nat
      ensures i in Positions(cohort, |cohort|) <==> i < |before| && InCohort(before[i], tests[n], now)
    {
    }
  }

  /** The tests some active score was taken on. */
  ghost function RankedTests(scores: seq<Score>, now: Instant): set<TestId> {
    set i | 0 <= i < |scores| && IsActive(scores[i], now) && scores[i].testId.Some? :: scores[i].testId.value
  }

  ghost function Elements(tests: seq<TestId>): set<TestId> {
    set t | t in tests
  }

  lemma {:induction false} DistinctElements(tests: seq<TestId>)
    requires NoDup(tests)
    ensures |Elements(tests)| == |tests|
  {
    if tests == [] {
    } else {
      DistinctElements(tests[1..]);
      assert tests[0] !in tests[1..];
      assert Elements(tests) == {tests[0]} + Elements(tests[1..]);
    }
  }

  lemma OneBucketPerTest(scores: seq<Score>, tests: seq<TestId>, cohorts: map<TestId, seq<nat>>, now: Instant)
    requires Grouped(scores, tests, cohorts, now)
    ensures |tests| == |RankedTests(scores, now)|
  {
    DistinctElements(tests);
    forall t
      ensures t in tests <==> t in RankedTests(scores, now)
    {
      var ids := Cohort(scores, t, now);
      if ids != [] {
        assert InCohort(scores[ids[0]], t, now);
      }
    }
    assert Elements(tests) == RankedTests(scores, now);
  }

  class ScoreTable {
    var scores: seq<Score>

    constructor (scores: seq<Score>)
      ensures this.scores == scores
    {
      this.scores := scores;
    }

    /** The buckets are exactly the cohorts; `tests` lists their keys in insertion order. */
    method GroupByTest(now: Instant) returns (tests: seq<TestId>, cohorts: map<TestId, seq<nat>>)
      ensures Grouped(scores, tests, cohorts, now)
    {
      hide Buckets, Cohorts;
      tests, cohorts := [], map[];
      NothingGrouped(now);
      assert scores[..0] == [];
      for n := 0 to |scores|
        invariant Grouped(scores[..n], tests, cohorts, now)
      {
        var score := scores[n];
        assert scores[..n + 1] == scores[..n] + [score];
        if IsActive(score, now) && score.testId.Some? {
          var test := score.testId.value;
          CohortsAfterAdding(scores[..n], score, test, now);
          if test in cohorts {
            BucketFilled(tests, cohorts, Cohorts(scores[..n], now), Cohorts(scores[..n + 1], now), test, n);
            cohorts := cohorts[test := cohorts[test] + [n]];
          } else {
            BucketOpened(tests, cohorts, Cohorts(scores[..n], now), Cohorts(scores[..n + 1], now), test, n);
            cohorts := cohorts[test := [n]];
            tests := tests + [test];
          }
        } else {
          GroupingSkips(scores[..n], score, tests, cohorts, now);
        }
      }
      assert scores[..|scores|] == scores;
    }

    method RecalculateCohort(cohort: seq<nat>, ghost before: seq<Score>, ghost done: set<nat>,
            ghost test: TestId, ghost now: Instant)
      returns (updated: nat)
      requires Swept(scores, before, done, now)
      requires cohort == Cohort(before, test, now) != [] && forall i :: i in done ==> i !in cohort
      modifies this
      ensures Swept(scores, before, done + Positions(cohort, |cohort|), now)
      ensures |Changes(before, done + Positions(cohort, |cohort|), now)| == |Changes(before, done, now)| + updated
    {
      hide Swept, Changes, Ranked, ValuesOf, PercentileIn, Round2;
      SweptValues(scores, before, done, now, cohort);
      var values := ValuesOf(scores, cohort);
      updated := 0;
      ghost var swept := done;
      for n := 0 to |cohort|
        invariant swept == done + Positions(cohort, n)
        invariant |scores| == |before| && Swept(scores, before, swept, now)
        invariant |Changes(before, swept, now)| == |Changes(before, done, now)| + updated
      {
        var id := cohort[n];
        NextPosition(cohort, n);
        assert id in cohort;
        SweepOne(scores, before, swept, id, test, values, now);
        swept := swept + {id};
        var score := scores[id];
        var percentile := PercentileIn(values, score.value);
        SkipsExactlyTheUnchanged(score, percentile);
        if !(score.percentile.Some? && Round2(score.percentile.value, 100) == percentile) {
          scores := scores[id := score.(percentile := Some(percentile))];
          updated := updated + 1;
        } else {
          assert scores[id := score] == scores;
        }
      }
    }

    /** Every active score of a known test is ranked in its cohort, and exactly the changed rows are counted. */
    method Recalculate(now: Instant) returns (cohortCount: nat, updatedCount: nat)
      modifies this
      ensures scores == Recalculated(old(scores), now)
      ensures cohortCount == |RankedTests(old(scores), now)|
      ensures updatedCount == |ChangedRows(old(scores), scores)|
    {
      ghost var before := scores;
      var tests, cohorts := GroupByTest(now);
      OneBucketPerTest(scores, tests, cohorts, now);
      cohortCount, updatedCount := |tests|, 0;
      ghost var done: set<nat> := {};
      for n := 0 to |tests|
        invariant Swept(scores, before, done, now)
        invariant CoversFirst(before, done, tests, n, now)
        invariant updatedCount == |Changes(before, done, now)|
      {
        var test := tests[n];
        assert test in cohorts;
        var cohort := cohorts[test];
        CohortIsNew(before, done, tests, n, now);
        CoverageGrows(before, done, tests, n, now, cohort);
        var updated := RecalculateCohort(cohort, before, done, test, now);
        updatedCount := updatedCount + updated;
        done := done + Positions(cohort, |cohort|);
      }
      SweepIsComplete(before, scores, tests, cohorts, done, now);
    }
  }

  lemma SweepIsComplete(before: seq<Score>, scores: seq<Score>, tests: seq<TestId>, cohorts: map<TestId, seq<nat>>,
          done: set<nat>, now: Instant)
    requires Grouped(before, tests, cohorts, now) && Swept(scores, before, done, now)
    requires CoversFirst(before, done, tests, |tests|, now)
    ensures scores == Recalculated(before, now)
    ensures ChangedRows(before, scores) == Changes(before, done, now)
  {
    forall i | 0 <= i < |before|
      ensures scores[i] == Ranked(before, i, now)
    {
      if IsActive(before[i], now) && before[i].testId.Some? {
        var test := before[i].testId.value;
        assert i in Cohort(before, test, now);
        assert test in cohorts && test in tests;
        var k :| 0 <= k < |tests| && tests[k] == test;
        assert InCohort(before[i], tests[k], now);
      }
    }
  }

  /**
   The cohorts partition the active scores whose test is known: each is in its test's cohort, once, and
   in no other.
   */
  lemma {:induction false} CohortsPartition(scores: seq<Score>, i: nat, now: Instant, test: TestId)
    requires i < |scores|
    ensures multiset(Cohort(scores, test, now))[i]
            == if scores[i].expiresAt > now && !scores[i].plagiarismConfirmed && scores[i].testId == Some(test)
               then 1 else 0
  {
    OccursOnce(Cohort(scores, test, now), i);
  }

  /** The places of the scores a score is compared with, and of those below it. */
  ghost function Mates(scores: seq<Score>, test: TestId, now: Instant): set<nat> {
    set j: nat | j < |scores| && scores[j].expiresAt > now && !scores[j].plagiarismConfirmed
                 && scores[j].testId == Some(test)
  }

  ghost function MatesBelow(scores: seq<Score>, test: TestId, now: Instant, v: int): set<nat> {
    set j | j in Mates(scores, test, now) && scores[j].value < v
  }

  ghost function Listed(ids: seq<nat>): set<nat> {
    set j | j in ids
  }

  ghost function ListedBelow(scores: seq<Score>, ids: seq<nat>, v: int): set<nat>
    requires forall k :: 0 <= k < |ids| ==> ids[k] < |scores|
  {
    set j | j in ids && scores[j].value < v
  }

  lemma {:induction false} CountsListed(ids: seq<nat>)
    requires NoDup(ids)
    ensures |ids| == |Listed(ids)|
  {
    if ids != [] {
      CountsListed(ids[1..]);
      assert ids[0] !in ids[1..];
      OneMoreElement(Listed(ids[1..]), Listed(ids), ids[0], true);
    }
  }

  lemma {:induction false} CountsListedBelow(scores: seq<Score>, ids: seq<nat>, v: int)
    requires NoDup(ids) && forall k :: 0 <= k < |ids| ==> ids[k] < |scores|
    ensures CountBelow(ValuesOf(scores, ids), v) == |ListedBelow(scores, ids, v)|
  {
    if ids != [] {
      CountsListedBelow(scores, ids[1..], v);
      assert ids[0] !in ids[1..];
      assert ValuesOf(scores, ids)[1..] == ValuesOf(scores, ids[1..]);
      OneMoreElement(ListedBelow(scores, ids[1..], v), ListedBelow(scores, ids, v), ids[0], scores[ids[0]].value < v);
    }
  }

  /**
   What the sweep does to a score: a valid one of a known test gets the share of lower ones among the
   valid scores of that test as its percentile; any other is left alone.
   */
  lemma SweepRanks(scores: seq<Score>, i: nat, now: Instant)
    requires i < |scores|
    ensures var s, s' := scores[i], Recalculated(scores, now)[i];
            if s.expiresAt > now && !s.plagiarismConfirmed && s.testId.Some? then
              var test := s.testId.value;
              && Mates(scores, test, now) != {}
              && s' == s.(percentile := Some(Percentile(|MatesBelow(scores, test, now, s.value)|,
                                                        |Mates(scores, test, now)|)))
            else s' == s
  {
    var s := scores[i];
    if s.expiresAt > now && !s.plagiarismConfirmed && s.testId.Some? {
      hide Percentile, CountBelow;
      var test := s.testId.value;
      var ids := Cohort(scores, test, now);
      RankedInCohort(scores, i, test, now);
      CountsListed(ids);
      CountsListedBelow(scores, ids, s.value);
      assert Listed(ids) == Mates(scores, test, now);
      assert ListedBelow(scores, ids, s.value) == MatesBelow(scores, test, now, s.value);
    }
  }

  lemma {:induction false} OccursOnce(ids: seq<nat>, i: nat)
    requires NoDup(ids)
    ensures multiset(ids)[i] == if i in ids then 1 else 0
  {
    if ids != [] {
      assert ids == [ids[0]] + ids[1..];
      OccursOnce(ids[1..], i);
    }
  }
}
