/**
 Profile completeness (src/modules/candidates/candidate-profile.service.ts) and the CV index
 flags that cache a condition over it (src/modules/assessments/indexation.service.ts), for one
 candidate. Percentages, scores and weights are in hundredths, as the columns store them.
 */
module Indexation {
  import opened Common
  import P = Percentiles

  /** The text fields that count; an absent one is empty. */
  datatype Fields = Fields(firstName: string, lastName: string, headline: string, bio: string, school: string)

  /** The rows of the other tables that count. */
  datatype Counts = Counts(experiences: nat, skills: nat, cleanCvs: nat, links: nat)

  datatype Profile = Profile(fields: Fields, completeness: int, indexedInCvtheque: bool, featured: bool)

  datatype Score = Score(value: int, percentile: Option<int>, plagiarismConfirmed: bool, expiresAt: Instant)

  datatype Settings = Settings(
    identity: int, experience: int, skills: int, cv: int, links: int, school: int,
    threshold: int, minSkills: int,
    scoreMin: int, percentileMin: int, featuringMin: int)

  datatype Element = Identity | Experience | Skills | Cv | Links | School

  const ELEMENTS: seq<Element> := [Identity, Experience, Skills, Cv, Links, School]

  function Weight(e: Element, s: Settings): int {
    match e
    case Identity => s.identity
    case Experience => s.experience
    case Skills => s.skills
    case Cv => s.cv
    case Links => s.links
    case School => s.school
  }

  predicate Present(e: Element, f: Fields, c: Counts, s: Settings) {
    match e
    case Identity => f.firstName != "" && f.lastName != "" && f.headline != "" && f.bio != ""
    case Experience => c.experiences >= 1
    case Skills => c.skills >= s.minSkills
    case Cv => c.cleanCvs >= 1
    case Links => c.links >= 1
    case School => f.school != ""
  }

  function TotalWeight(es: seq<Element>, s: Settings): int {
    if es == [] then 0 else TotalWeight(es[..|es| - 1], s) + Weight(es[|es| - 1], s)
  }

  function PresentOf(es: seq<Element>, f: Fields, c: Counts, s: Settings): seq<Element> {
    if es == [] then []
    else PresentOf(es[..|es| - 1], f, c, s) + if Present(es[|es| - 1], f, c, s) then [es[|es| - 1]] else []
  }

  function MissingOf(es: seq<Element>, f: Fields, c: Counts, s: Settings): seq<Element> {
    if es == [] then []
    else MissingOf(es[..|es| - 1], f, c, s) + if Present(es[|es| - 1], f, c, s) then [] else [es[|es| - 1]]
  }

  function Completeness(f: Fields, c: Counts, s: Settings): int {
    TotalWeight(PresentOf(ELEMENTS, f, c, s), s)
  }

  lemma {:induction false} TotalWeightAppend(es: seq<Element>, e: Element, s: Settings)
    ensures TotalWeight(es + [e], s) == TotalWeight(es, s) + Weight(e, s)
  {
    assert (es + [e])[..|es|] == es;
  }

  /** What is present and what is missing account for all the weight. */
  lemma {:induction false} WeightIsConserved(es: seq<Element>, f: Fields, c: Counts, s: Settings)
    ensures TotalWeight(PresentOf(es, f, c, s), s) + TotalWeight(MissingOf(es, f, c, s), s) == TotalWeight(es, s)
  {
    if es != [] {
      var init, last := es[..|es| - 1], es[|es| - 1];
      WeightIsConserved(init, f, c, s);
      var present, missing := PresentOf(init, f, c, s), MissingOf(init, f, c, s);
      assert TotalWeight(es, s) == TotalWeight(init, s) + Weight(last, s);
      if Present(last, f, c, s) {
        TotalWeightAppend(present, last, s);
        assert MissingOf(es, f, c, s) == missing;
      } else {
        TotalWeightAppend(missing, last, s);
        assert PresentOf(es, f, c, s) == present;
      }
    }
  }

  function Worth(e: Element, f: Fields, c: Counts, s: Settings): int {
    if Present(e, f, c, s) then Weight(e, s) else 0
  }

  lemma OneMoreElementMeasured(es: seq<Element>, e: Element, f: Fields, c: Counts, s: Settings)
    ensures TotalWeight(PresentOf(es + [e], f, c, s), s)
            == TotalWeight(PresentOf(es, f, c, s), s) + Worth(e, f, c, s)
  {
    hide Weight, Present;
    assert (es + [e])[..|es|] == es;
    TotalWeightAppend(PresentOf(es, f, c, s), e, s);
    assert PresentOf(es, f, c, s) + [] == PresentOf(es, f, c, s);
  }

  lemma EveryElementIsMeasured(f: Fields, c: Counts, s: Settings)
    ensures Completeness(f, c, s)
            == Worth(Identity, f, c, s) + Worth(Experience, f, c, s) + Worth(Skills, f, c, s)
               + Worth(Cv, f, c, s) + Worth(Links, f, c, s) + Worth(School, f, c, s)
  {
    hide Worth, Present, Weight;
    assert TotalWeight(PresentOf([], f, c, s), s) == 0;
    hide TotalWeight, PresentOf;
    var one: seq<Element> := [] + [Identity];
    var two := one + [Experience];
    var three := two + [Skills];
    var four := three + [Cv];
    var five := four + [Links];
    assert ELEMENTS == five + [School];
    OneMoreElementMeasured([], Identity, f, c, s);
    OneMoreElementMeasured(one, Experience, f, c, s);
    OneMoreElementMeasured(two, Skills, f, c, s);
    OneMoreElementMeasured(three, Cv, f, c, s);
    OneMoreElementMeasured(four, Links, f, c, s);
    OneMoreElementMeasured(five, School, f, c, s);
  }

  lemma WorthMeans(f: Fields, c: Counts, s: Settings)
    ensures Worth(Identity, f, c, s)
            == if f.firstName != "" && f.lastName != "" && f.headline != "" && f.bio != "" then s.identity else 0
    ensures Worth(Experience, f, c, s) == if c.experiences > 0 then s.experience else 0
    ensures Worth(Skills, f, c, s) == if c.skills >= s.minSkills then s.skills else 0
    ensures Worth(Cv, f, c, s) == if c.cleanCvs > 0 then s.cv else 0
    ensures Worth(Links, f, c, s) == if c.links > 0 then s.links else 0
    ensures Worth(School, f, c, s) == if f.school != "" then s.school else 0
  {
  }

  /** Completeness adds up what each part of the profile is worth, for the parts that are there. */
  lemma CompletenessMeans(f: Fields, c: Counts, s: Settings)
    ensures Completeness(f, c, s)
            == (if f.firstName != "" && f.lastName != "" && f.headline != "" && f.bio != "" then s.identity else 0)
               + (if c.experiences > 0 then s.experience else 0)
               + (if c.skills >= s.minSkills then s.skills else 0)
               + (if c.cleanCvs > 0 then s.cv else 0)
               + (if c.links > 0 then s.links else 0)
               + (if f.school != "" then s.school else 0)
  {
    EveryElementIsMeasured(f, c, s);
    WorthMeans(f, c, s);
    hide Worth, Completeness;
  }

  predicate IsValid(score: Score, now: Instant) {
    !score.plagiarismConfirmed && score.expiresAt > now
  }

  predicate Qualifies(score: Score, s: Settings) {
    score.value >= s.scoreMin || (score.percentile.Some? && score.percentile.value >= s.percentileMin)
  }

  predicate Features(score: Score, s: Settings) {
    score.percentile.Some? && score.percentile.value >= s.featuringMin
  }

  ghost predicate ShouldIndex(completeness: int, scores: seq<Score>, s: Settings, now: Instant) {
    && completeness >= s.threshold
    && exists i :: 0 <= i < |scores| && IsValid(scores[i], now) && Qualifies(scores[i], s)
  }

  ghost predicate ShouldFeature(completeness: int, scores: seq<Score>, s: Settings, now: Instant) {
    && ShouldIndex(completeness, scores, s, now)
    && exists i :: 0 <= i < |scores| && IsValid(scores[i], now) && Features(scores[i], s)
  }

  /** The cache agrees with recomputing it now. */
  ghost predicate Agrees(p: Profile, scores: seq<Score>, s: Settings, now: Instant) {
    && (p.indexedInCvtheque <==> ShouldIndex(p.completeness, scores, s, now))
    && (p.featured <==> ShouldFeature(p.completeness, scores, s, now))
  }

  ghost function Recomputed(p: Profile, scores: seq<Score>, s: Settings, now: Instant): Profile {
    p.(indexedInCvtheque := ShouldIndex(p.completeness, scores, s, now),
       featured := ShouldFeature(p.completeness, scores, s, now))
  }

  /** One candidate's rows: the profile once it exists, and the scores of completed attempts. */
  class Candidate {
    var profile: Option<Profile>
    var counts: Counts
    var scores: seq<Score>
    const settings: Settings

    constructor (settings: Settings)
      ensures profile == None && counts == Counts(0, 0, 0, 0) && scores == [] && this.settings == settings
    {
      profile, counts, scores := None, Counts(0, 0, 0, 0), [];
      this.settings := settings;
    }

    method ApplyThresholds(now: Instant)
      modifies this`profile
      ensures profile == if old(profile).None? then None
                         else Some(Recomputed(old(profile).value, scores, settings, now))
    {
      if profile.None? {
        return;
      }
      var p := profile.value;
      var isCompleteEnough := p.completeness >= settings.threshold;
      var scoreThresholdMet, shouldFeature := false, false;
      for n := 0 to |scores|
        invariant scoreThresholdMet
            <==> exists i :: 0 <= i < n && IsValid(scores[i], now) && Qualifies(scores[i], settings)
        invariant shouldFeature <==> exists i :: 0 <= i < n && IsValid(scores[i], now) && Features(scores[i], settings)
      {
        var score := scores[n];
        if IsValid(score, now) {
          if score.value >= settings.scoreMin
             || (score.percentile.Some? && score.percentile.value >= settings.percentileMin) {
            scoreThresholdMet := true;
          }
          if score.percentile.Some? && score.percentile.value >= settings.featuringMin {
            shouldFeature := true;
          }
        }
      }
      p := p.(indexedInCvtheque := isCompleteEnough && scoreThresholdMet);
      p := p.(featured := p.indexedInCvtheque && shouldFeature);
      profile := Some(p);
    }

    /** Re-indexing is best effort: `reindexOk` says whether it goes through. */
    method CalculateCompleteness(now: Instant, reindexOk: bool)
      returns (completeness: int, isPublishable: bool, missing: seq<Element>)
      requires profile.Some?
      modifies this`profile
      ensures completeness == Completeness(old(profile).value.fields, counts, settings)
      ensures missing == MissingOf(ELEMENTS, old(profile).value.fields, counts, settings)
      ensures isPublishable <==> completeness >= settings.threshold
      ensures completeness + TotalWeight(missing, settings) == TotalWeight(ELEMENTS, settings)
      ensures profile == Some(Calculated(old(profile).value, counts, scores, settings, now, reindexOk))
    {
      var p := profile.value;
      completeness, missing := 0, [];
      ghost var present: seq<Element> := [];
      for n := 0 to |ELEMENTS|
        invariant completeness == TotalWeight(present, settings)
        invariant present == PresentOf(ELEMENTS[..n], p.fields, counts, settings)
        invariant missing == MissingOf(ELEMENTS[..n], p.fields, counts, settings)
      {
        assert ELEMENTS[..n + 1][..n] == ELEMENTS[..n];
        var element := ELEMENTS[n];
        if Present(element, p.fields, counts, settings) {
          completeness := completeness + Weight(element, settings);
          TotalWeightAppend(present, element, settings);
          present := present + [element];
        } else {
          missing := missing + [element];
        }
      }
      assert ELEMENTS[..|ELEMENTS|] == ELEMENTS;
      WeightIsConserved(ELEMENTS, p.fields, counts, settings);
      var previousCompleteness := p.completeness;
      p := p.(completeness := completeness);
      profile := Some(p);
      if previousCompleteness != completeness && reindexOk {
        ApplyThresholds(now);
      }
      isPublishable := completeness >= settings.threshold;
    }
  }

  /** The profile after its completeness was calculated. */
  ghost function Calculated(p: Profile, c: Counts, scores: seq<Score>, s: Settings, now: Instant, reindexOk: bool)
    : Profile
  {
    var p' := p.(completeness := Completeness(p.fields, c, s));
    if p'.completeness != p.completeness && reindexOk then Recomputed(p', scores, s, now) else p'
  }

  // ---- Runs ----

  datatype State = State(profile: Option<Profile>, counts: Counts, scores: seq<Score>)

  datatype Event =
    | ProfileCreated(fields: Fields)
    | FieldsEdited(fields: Fields)
    | RowsChanged(counts: Counts)
    | CompletenessRead
    | ScoreArrived(score: Score)

  ghost function Step(st: State, e: Event, s: Settings, now: Instant, reindexOk: bool): State {
    match e
    case ProfileCreated(fields) =>
      if st.profile.Some? then st else st.(profile := Some(Profile(fields, 0, false, false)))
    case ScoreArrived(score) =>
      var scores := st.scores + [score];
      State(if st.profile.None? then None else Some(Recomputed(st.profile.value, scores, s, now)), st.counts, scores)
    case FieldsEdited(fields) =>
      if st.profile.None? then st else Measured(st, fields, st.counts, s, now, reindexOk)
    case RowsChanged(counts) =>
      if st.profile.None? then st else Measured(st, st.profile.value.fields, counts, s, now, reindexOk)
    case CompletenessRead =>
      if st.profile.None? then st else Measured(st, st.profile.value.fields, st.counts, s, now, reindexOk)
  }

  /** The write of a mutation, then `calculateCompleteness`. */
  ghost function Measured(st: State, fields: Fields, counts: Counts, s: Settings, now: Instant, reindexOk: bool): State
    requires st.profile.Some?
  {
    State(Some(Calculated(st.profile.value.(fields := fields), counts, st.scores, s, now, reindexOk)), counts,
        st.scores)
  }

  datatype Timed = Timed(event: Event, now: Instant)

  ghost function After(st: State, es: seq<Timed>, s: Settings): State
    decreases |es|
  {
    if es == [] then st else After(Step(st, es[0].event, s, es[0].now, true), es[1..], s)
  }

  /** No score stops being valid before the run is over. */
  ghost predicate NothingExpires(scores: seq<Score>, es: seq<Timed>, end: Instant) {
    && (forall i :: 0 <= i < |scores| ==> scores[i].expiresAt > end)
    && (forall i :: 0 <= i < |es|
          ==> es[i].now <= end && (es[i].event.ScoreArrived? ==> es[i].event.score.expiresAt > end))
  }

  lemma SameWhileNothingExpires(completeness: int, scores: seq<Score>, s: Settings, now: Instant, end: Instant)
    requires now <= end && forall i :: 0 <= i < |scores| ==> scores[i].expiresAt > end
    ensures ShouldIndex(completeness, scores, s, now) <==> ShouldIndex(completeness, scores, s, end)
    ensures ShouldFeature(completeness, scores, s, now) <==> ShouldFeature(completeness, scores, s, end)
  {
    assert forall i :: 0 <= i < |scores| ==> (IsValid(scores[i], now) <==> IsValid(scores[i], end));
  }

  lemma StepKeepsAgreement(st: State, e: Event, s: Settings, now: Instant, end: Instant)
    requires s.threshold > 0 && now <= end
    requires forall i :: 0 <= i < |st.scores| ==> st.scores[i].expiresAt > end
    requires e.ScoreArrived? ==> e.score.expiresAt > end
    requires st.profile.Some? ==> Agrees(st.profile.value, st.scores, s, end)
    ensures var st' := Step(st, e, s, now, true);
            st'.profile.Some? ==> Agrees(st'.profile.value, st'.scores, s, end)
  {
    var st' := Step(st, e, s, now, true);
    if st'.profile.Some? {
      SameWhileNothingExpires(st'.profile.value.completeness, st'.scores, s, now, end);
    }
  }

  /** Every change of profile or rows is written and measured at once; a score that arrives is added. */
  lemma ChangesAreMeasured(st: State, e: Event, s: Settings, now: Instant, reindexOk: bool)
    requires st.profile.Some?
    ensures var st' := Step(st, e, s, now, reindexOk);
            && st'.profile.Some?
            && var p, p' := st.profile.value, st'.profile.value;
            match e
            case ProfileCreated(_) => st' == st
            case FieldsEdited(fields) =>
              && p'.fields == fields && p'.completeness == Completeness(fields, st.counts, s)
              && st'.counts == st.counts && st'.scores == st.scores
            case RowsChanged(counts) =>
              && p'.fields == p.fields && p'.completeness == Completeness(p.fields, counts, s)
              && st'.counts == counts && st'.scores == st.scores
            case CompletenessRead =>
              && p'.fields == p.fields && p'.completeness == Completeness(p.fields, st.counts, s)
              && st'.counts == st.counts && st'.scores == st.scores
            case ScoreArrived(score) =>
              && p'.fields == p.fields && p'.completeness == p.completeness
              && st'.counts == st.counts && st'.scores == st.scores + [score]
  {
  }

  /**
   After any sequence of profile changes and score arrivals, also scores that come before the
   profile exists, both flags are what recomputing them would give.
   */
  lemma {:induction false} CacheAgrees(st: State, es: seq<Timed>, s: Settings, end: Instant)
    requires s.threshold > 0 && NothingExpires(st.scores, es, end)
    requires st.profile.Some? ==> Agrees(st.profile.value, st.scores, s, end)
    ensures var st' := After(st, es, s);
            st'.profile.Some? ==> Agrees(st'.profile.value, st'.scores, s, end)
    decreases |es|
  {
    if es != [] {
      StepKeepsAgreement(st, es[0].event, s, es[0].now, end);
      var st' := Step(st, es[0].event, s, es[0].now, true);
      assert forall i :: 0 <= i < |es[1..]| ==> es[1..][i] == es[i + 1];
      CacheAgrees(st', es[1..], s, end);
    }
  }

  /** With a threshold of zero a profile created after a qualifying score starts out wrong; otherwise never. */
  lemma NewProfileAgreesIff(st: State, fields: Fields, s: Settings, now: Instant)
    requires st.profile.None?
    ensures Agrees(Step(st, ProfileCreated(fields), s, now, true).profile.value, st.scores, s, now)
            <==> !(s.threshold <= 0 && exists i :: 0 <= i < |st.scores| && IsValid(st.scores[i], now)
                                         && Qualifies(st.scores[i], s))
  {
  }

  /**
   A re-indexing that fails is only harmless when crossing from one completeness to the other changes
   neither flag.
   */
  lemma FailedReindexAgreesIff(p: Profile, c: Counts, scores: seq<Score>, s: Settings, now: Instant)
    requires Agrees(p, scores, s, now)
    ensures var p' := Calculated(p, c, scores, s, now, false);
            Agrees(p', scores, s, now) <==>
            ((p.completeness >= s.threshold <==> p'.completeness >= s.threshold)
             || !exists i :: 0 <= i < |scores| && IsValid(scores[i], now) && Qualifies(scores[i], s))
  {
  }

  // ---- Percentiles that move ----

  /** Only percentiles differ. */
  ghost predicate Repercentiled(before: seq<Score>, after: seq<Score>) {
    && |before| == |after|
    && forall i :: 0 <= i < |before| ==> after[i] == before[i].(percentile := after[i].percentile)
  }

  ghost predicate HasValue(scores: seq<Score>, min: int, now: Instant) {
    exists i :: 0 <= i < |scores| && !scores[i].plagiarismConfirmed && scores[i].expiresAt > now
                && scores[i].value >= min
  }

  ghost predicate Reaches(scores: seq<Score>, bound: int, now: Instant) {
    exists i :: 0 <= i < |scores| && !scores[i].plagiarismConfirmed && scores[i].expiresAt > now
                && scores[i].percentile.Some? && scores[i].percentile.value >= bound
  }

  lemma ShouldIndexMeans(completeness: int, scores: seq<Score>, s: Settings, now: Instant)
    ensures ShouldIndex(completeness, scores, s, now)
            <==> completeness >= s.threshold
                 && (HasValue(scores, s.scoreMin, now) || Reaches(scores, s.percentileMin, now))
    ensures ShouldFeature(completeness, scores, s, now)
            <==> ShouldIndex(completeness, scores, s, now) && Reaches(scores, s.featuringMin, now)
  {
  }

  /**
   No bound that matters is crossed: none does in a profile below the threshold; the indexation
   percentile only without a valid score at the minimum; the featuring one only if indexed. The
   last four say whether a percentile reaches each bound before and after.
   */
  predicate NoBoundCrossed(completeness: int, threshold: int, byValue: bool, indexes: bool, indexes': bool,
          features: bool, features': bool)
  {
    || completeness < threshold
    || (&& (byValue || (indexes <==> indexes'))
        && (byValue || indexes' ==> (features <==> features')))
  }

  /** Flags that agreed still agree after any change of percentiles exactly when no such bound was crossed. */
  lemma MovedPercentilesAgreeIff(p: Profile, before: seq<Score>, after: seq<Score>, s: Settings, now: Instant)
    requires Agrees(p, before, s, now) && Repercentiled(before, after)
    ensures Agrees(p, after, s, now)
            <==> NoBoundCrossed(p.completeness, s.threshold, HasValue(before, s.scoreMin, now),
                                Reaches(before, s.percentileMin, now), Reaches(after, s.percentileMin, now),
                                Reaches(before, s.featuringMin, now), Reaches(after, s.featuringMin, now))
  {
    SameValues(before, after, s.scoreMin, now);
    ShouldIndexMeans(p.completeness, before, s, now);
    ShouldIndexMeans(p.completeness, after, s, now);
    hide ShouldIndex, ShouldFeature, HasValue, Reaches;
  }

  lemma SameValues(before: seq<Score>, after: seq<Score>, min: int, now: Instant)
    requires Repercentiled(before, after)
    ensures HasValue(before, min, now) <==> HasValue(after, min, now)
  {
    forall i | 0 <= i < |before|
      ensures IsValid(before[i], now) == IsValid(after[i], now) && before[i].value == after[i].value
    {
      assert after[i] == before[i].(percentile := after[i].percentile);
    }
  }

  // ---- The sweep does not re-index ----

  function View(score: P.Score): Score {
    Score(score.value, score.percentile, score.plagiarismConfirmed, score.expiresAt)
  }

  predicate Places(own: seq<nat>, table: seq<P.Score>) {
    forall k :: 0 <= k < |own| ==> own[k] < |table|
  }

  /** One candidate's scores in the table of all. */
  function OwnScores(table: seq<P.Score>, own: seq<nat>): seq<Score>
    requires Places(own, table)
  {
    seq(|own|, k requires 0 <= k < |own| => View(table[own[k]]))
  }

  lemma SweepMovesPercentiles(table: seq<P.Score>, own: seq<nat>, now: Instant)
    requires Places(own, table)
    ensures Places(own, P.Recalculated(table, now))
    ensures Repercentiled(OwnScores(table, own), OwnScores(P.Recalculated(table, now), own))
  {
  }

  /**
   Where the sweep will put score i, seen before it: at the share of lower scores in its test, or,
   if it is in no cohort, where it is.
   */
  predicate RankReaches(table: seq<P.Score>, i: nat, bound: int, now: Instant)
    requires i < |table|
  {
    if P.IsActive(table[i], now) && table[i].testId.Some? then
      var ids := P.Cohort(table, table[i].testId.value, now);
      assert i in ids;
      var values := P.ValuesOf(table, ids);
      P.Percentile(P.CountBelow(values, table[i].value), |values|) >= bound
    else table[i].percentile.Some? && table[i].percentile.value >= bound
  }

  ghost predicate WillReach(table: seq<P.Score>, own: seq<nat>, bound: int, now: Instant)
    requires Places(own, table)
  {
    exists k :: 0 <= k < |own| && IsValid(View(table[own[k]]), now) && RankReaches(table, own[k], bound, now)
  }

  lemma SweptReaches(table: seq<P.Score>, own: seq<nat>, bound: int, now: Instant)
    requires Places(own, table)
    ensures Places(own, P.Recalculated(table, now))
    ensures Reaches(OwnScores(P.Recalculated(table, now), own), bound, now) <==> WillReach(table, own, bound, now)
  {
    hide P.Percentile, P.CountBelow, P.Cohort;
    var after := OwnScores(P.Recalculated(table, now), own);
    forall k | 0 <= k < |own|
      ensures IsValid(after[k], now) == IsValid(View(table[own[k]]), now)
      ensures after[k].percentile.Some? && after[k].percentile.value >= bound
              <==> RankReaches(table, own[k], bound, now)
    {
      assert after[k] == View(P.Ranked(table, own[k], now));
    }
  }

  /**
   After a percentile sweep the flags agree exactly when the ranks that the candidate's scores
   have among those of their tests, before the sweep, are across no bound that matters from the
   percentiles stored.
   */
  lemma SweepAgreesIff(p: Profile, table: seq<P.Score>, own: seq<nat>, s: Settings, now: Instant)
    requires Places(own, table) && Agrees(p, OwnScores(table, own), s, now)
    ensures var before := OwnScores(table, own);
            && Places(own, P.Recalculated(table, now))
            && (Agrees(p, OwnScores(P.Recalculated(table, now), own), s, now)
                <==> NoBoundCrossed(p.completeness, s.threshold, HasValue(before, s.scoreMin, now),
                                    Reaches(before, s.percentileMin, now), WillReach(table, own, s.percentileMin, now),
                                    Reaches(before, s.featuringMin, now), WillReach(table, own, s.featuringMin, now)))
  {
    hide P.Recalculated, Agrees, NoBoundCrossed, Repercentiled, WillReach, Reaches, HasValue;
    SweepMovesPercentiles(table, own, now);
    SweptReaches(table, own, s.percentileMin, now);
    SweptReaches(table, own, s.featuringMin, now);
    MovedPercentilesAgreeIff(p, OwnScores(table, own), OwnScores(P.Recalculated(table, now), own), s, now);
  }

  lemma {:induction false} CohortOfOneTest(table: seq<P.Score>, test: P.TestId, now: Instant)
    requires forall i :: 0 <= i < |table| ==> P.InCohort(table[i], test, now)
    ensures P.Cohort(table, test, now) == seq(|table|, i => i)
  {
    if table != [] {
      CohortOfOneTest(table[..|table| - 1], test, now);
    }
  }

  lemma {:induction false} BestIsAboveTheOthers(values: seq<int>, best: int)
    requires values != [] && values[|values| - 1] == best
    requires forall i :: 0 <= i < |values| - 1 ==> values[i] < best
    ensures P.CountBelow(values, best) == |values| - 1
  {
    if |values| > 1 {
      BestIsAboveTheOthers(values[1..], best);
    }
  }

  /** The best of a test, taken last, is ranked above all n others. */
  lemma BestScoreIsRanked(others: seq<P.Score>, best: P.Score, test: P.TestId, now: Instant)
    requires P.InCohort(best, test, now)
    requires forall i :: 0 <= i < |others| ==> P.InCohort(others[i], test, now) && others[i].value < best.value
    ensures P.Recalculated(others + [best], now)[|others|]
            == best.(percentile := Some(P.Percentile(|others|, |others| + 1)))
  {
    hide P.Percentile, P.CountBelow, P.Cohort, P.ValuesOf, P.PercentileIn;
    var table := others + [best];
    BestOfItsCohort(others, best, test, now);
    P.RankedInCohort(table, |others|, test, now);
  }

  lemma BestOfItsCohort(others: seq<P.Score>, best: P.Score, test: P.TestId, now: Instant)
    requires P.InCohort(best, test, now)
    requires forall i :: 0 <= i < |others| ==> P.InCohort(others[i], test, now) && others[i].value < best.value
    ensures var table := others + [best];
            var ids := P.Cohort(table, test, now);
            ids != [] && P.PercentileIn(P.ValuesOf(table, ids), best.value) == P.Percentile(|others|, |others| + 1)
  {
    hide P.Percentile, P.CountBelow;
    var table := others + [best];
    CohortOfOneTest(table, test, now);
    var values := P.ValuesOf(table, P.Cohort(table, test, now));
    assert |values| == |table|;
    assert forall i :: 0 <= i < |others| ==> values[i] == others[i].value;
    BestIsAboveTheOthers(values, best.value);
  }

  /**
   So the flags do go stale. Whoever is not indexed, scores below the minimum, and is best of n + 1
   whose rank reaches the bound, should be indexed after the sweep; whoever is indexed for the
   provider's percentile of a score that nobody else has a comparable one of, should not be.
   */
  lemma SweepMakesFlagsStale(p: Profile, others: seq<P.Score>, best: P.Score, test: P.TestId, s: Settings, now: Instant)
    requires p.completeness >= s.threshold && P.InCohort(best, test, now) && best.percentile.Some?
        && best.value < s.scoreMin
    requires forall i :: 0 <= i < |others| ==> P.InCohort(others[i], test, now) && others[i].value < best.value
    requires (best.percentile.value >= s.percentileMin) != (P.Percentile(|others|, |others| + 1) >= s.percentileMin)
    ensures var table := others + [best];
            && Places([|others|], table) && Places([|others|], P.Recalculated(table, now))
            && (Agrees(p, OwnScores(table, [|others|]), s, now)
                ==> !Agrees(p, OwnScores(P.Recalculated(table, now), [|others|]), s, now))
  {
    var table, own := others + [best], [|others|];
    var before, after := OwnScores(table, own), OwnScores(P.Recalculated(table, now), own);
    BestScoreIsRanked(others, best, test, now);
    assert before == [View(best)] && |after| == 1;
    assert after[0].percentile == Some(P.Percentile(|others|, |others| + 1)) && after[0].value == best.value;
    if Agrees(p, before, s, now) {
      hide P.Percentile, P.Recalculated, Agrees;
      SweepMovesPercentiles(table, own, now);
      MovedPercentilesAgreeIff(p, before, after, s, now);
      assert IsValid(before[0], now) && IsValid(after[0], now);
    }
  }

  /** The best of a test is ranked at the default bound, 85, exactly when at least six are below. */
  lemma BestReachesDefaultIff(n: nat)
    ensures P.Percentile(n, n + 1) >= 8500 <==> n >= 6
  {
    P.PercentileWindow(n, n + 1, P.Percentile(n, n + 1));
    var p := P.Percentile(n, n + 1);
    if p < 8500 {
      MulLe(n + 1, p, 8499);
    } else {
      MulLe(n + 1, 8500, p);
    }
  }

  /**
   So with the default bound they go stale for the best of at least seven that had a lower percentile, and
   for the best of at most six that had a higher one.
   */
  lemma DefaultBoundGoesStale(p: Profile, others: seq<P.Score>, best: P.Score, test: P.TestId,
          s: Settings, now: Instant)
    requires s.percentileMin == 8500 && p.completeness >= s.threshold
    requires P.InCohort(best, test, now) && best.percentile.Some? && best.value < s.scoreMin
    requires forall i :: 0 <= i < |others| ==> P.InCohort(others[i], test, now) && others[i].value < best.value
    requires (best.percentile.value >= 8500) != (|others| >= 6)
    ensures var table := others + [best];
            && Places([|others|], table) && Places([|others|], P.Recalculated(table, now))
            && (Agrees(p, OwnScores(table, [|others|]), s, now)
                ==> !Agrees(p, OwnScores(P.Recalculated(table, now), [|others|]), s, now))
  {
    hide P.Percentile, P.Recalculated, Agrees;
    BestReachesDefaultIff(|others|);
    SweepMakesFlagsStale(p, others, best, test, s, now);
  }
}
