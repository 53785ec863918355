/**
 Grading an exam (src/modules/assessments/exam.service.ts) and weighing the stored score
 (src/modules/assessments/webhook.service.ts). Numbers are exact; Math.round takes halves up.
 */
module Grading {
  import opened Common

  datatype Question = Question(id: string, technical: bool, domain: string, correct: int)

  /** What the candidate sent: the chosen option by question id. */
  type Answers = map<string, int>

  datatype Level = Strong | Medium | Weak

  datatype Tally = Tally(ok: nat, total: nat)

  datatype Grade = Grade(composite: int, technicalScore: int, psychotechnicalScore: int, correct: nat, total: nat)

  predicate IsRight(q: Question, answers: Answers) {
    q.id in answers && answers[q.id] == q.correct
  }

  function Select(qs: seq<Question>, p: Question -> bool): (r: seq<Question>)
    ensures forall k :: 0 <= k < |r| ==> p(r[k])
  {
    if qs == [] then []
    else Select(qs[..|qs| - 1], p) + if p(qs[|qs| - 1]) then [qs[|qs| - 1]] else []
  }

  function CountRight(qs: seq<Question>, answers: Answers): (n: nat)
    ensures n <= |qs|
  {
    if qs == [] then 0
    else CountRight(qs[..|qs| - 1], answers) + if IsRight(qs[|qs| - 1], answers) then 1 else 0
  }

  function Percent(qs: seq<Question>, answers: Answers): int {
    if qs == [] then 0 else RoundHalfUp(100 * CountRight(qs, answers), |qs|)
  }

  function Composite(technical: int, psychotechnical: int): int {
    RoundHalfUp(6 * technical + 4 * psychotechnical, 10)
  }

  function GradeOf(qs: seq<Question>, answers: Answers): Grade {
    var technical := Percent(Select(qs, (q: Question) => q.technical), answers);
    var psychotechnical := Percent(Select(qs, (q: Question) => !q.technical), answers);
    Grade(Composite(technical, psychotechnical), technical, psychotechnical, CountRight(qs, answers), |qs|)
  }

  // ---- Scores ----

  lemma PercentRange(qs: seq<Question>, answers: Answers)
    ensures 0 <= Percent(qs, answers) <= 100
    ensures Percent(qs, answers) == 100 <== qs != [] && CountRight(qs, answers) == |qs|
  {
    if qs != [] {
      hide RoundHalfUp, CountRight;
      var right, n := CountRight(qs, answers), |qs|;
      RoundingIsMonotone(0, 100 * right, n);
      RoundingIsMonotone(100 * right, 100 * n, n);
      RoundHalfUpUnique(0, n, 0);
      RoundHalfUpUnique(100 * n, n, 100);
    }
  }

  lemma RoundingIsMonotone(a: int, b: int, den: int)
    requires den > 0 && a <= b
    ensures RoundHalfUp(a, den) <= RoundHalfUp(b, den)
  {
    var p, q := RoundHalfUp(a, den), RoundHalfUp(b, den);
    if p > q {
      MulLe(den, 2 * q + 1, 2 * p - 1);
    }
  }

  /** Every answer that was right is still right. */
  ghost predicate NoWorse(qs: seq<Question>, before: Answers, after: Answers) {
    forall k :: 0 <= k < |qs| ==> IsRight(qs[k], before) ==> IsRight(qs[k], after)
  }

  lemma {:induction false} SelectKeepsNoWorse(qs: seq<Question>, p: Question -> bool, before: Answers, after: Answers)
    requires NoWorse(qs, before, after)
    ensures NoWorse(Select(qs, p), before, after)
  {
    if qs != [] {
      SelectKeepsNoWorse(qs[..|qs| - 1], p, before, after);
      assert IsRight(qs[|qs| - 1], before) ==> IsRight(qs[|qs| - 1], after);
    }
  }

  lemma {:induction false} CountGrows(qs: seq<Question>, before: Answers, after: Answers)
    requires NoWorse(qs, before, after)
    ensures CountRight(qs, before) <= CountRight(qs, after)
  {
    if qs != [] {
      CountGrows(qs[..|qs| - 1], before, after);
      assert IsRight(qs[|qs| - 1], before) ==> IsRight(qs[|qs| - 1], after);
    }
  }

  lemma PercentGrows(qs: seq<Question>, before: Answers, after: Answers)
    requires NoWorse(qs, before, after)
    ensures Percent(qs, before) <= Percent(qs, after)
  {
    CountGrows(qs, before, after);
    if qs != [] {
      RoundingIsMonotone(100 * CountRight(qs, before), 100 * CountRight(qs, after), |qs|);
    }
  }

  /** Answering no question worse lowers no score. */
  lemma BetterAnswersNeverScoreLess(qs: seq<Question>, before: Answers, after: Answers)
    requires NoWorse(qs, before, after)
    ensures var was, now := GradeOf(qs, before), GradeOf(qs, after);
            && was.technicalScore <= now.technicalScore && was.psychotechnicalScore <= now.psychotechnicalScore
            && was.composite <= now.composite && was.correct <= now.correct
  {
    var technical, psychotechnical := (q: Question) => q.technical, (q: Question) => !q.technical;
    SelectKeepsNoWorse(qs, technical, before, after);
    SelectKeepsNoWorse(qs, psychotechnical, before, after);
    PercentGrows(Select(qs, technical), before, after);
    PercentGrows(Select(qs, psychotechnical), before, after);
    CountGrows(qs, before, after);
    var was, now := GradeOf(qs, before), GradeOf(qs, after);
    RoundingIsMonotone(6 * was.technicalScore + 4 * was.psychotechnicalScore,
        6 * now.technicalScore + 4 * now.psychotechnicalScore, 10);
  }

  ghost predicate DistinctIds(qs: seq<Question>) {
    forall i, j :: 0 <= i < j < |qs| ==> qs[i].id != qs[j].id
  }

  /** Correcting one answer lowers no score. */
  lemma CorrectingOneAnswer(qs: seq<Question>, answers: Answers, k: nat)
    requires DistinctIds(qs) && k < |qs|
    ensures var was, now := GradeOf(qs, answers), GradeOf(qs, answers[qs[k].id := qs[k].correct]);
            && was.technicalScore <= now.technicalScore && was.psychotechnicalScore <= now.psychotechnicalScore
            && was.composite <= now.composite && was.correct <= now.correct
  {
    var after := answers[qs[k].id := qs[k].correct];
    forall i | 0 <= i < |qs| && IsRight(qs[i], answers)
      ensures IsRight(qs[i], after)
    {
      assert i != k ==> qs[i].id != qs[k].id;
    }
    BetterAnswersNeverScoreLess(qs, answers, after);
  }

  lemma CompositeIsBetween(t: int, p: int)
    ensures var c := Composite(t, p);
            && (t <= c <= p || p <= c <= t)
            && -5 < 10 * c - (6 * t + 4 * p) < 5
  {
    hide RoundHalfUp;
    var c := Composite(t, p);
    var miss := 5 * c - (3 * t + 2 * p);
    assert -5 <= 2 * miss <= 5;
    assert -2 <= miss <= 2;
    if t <= p {
      assert 5 * t - 2 <= 5 * c <= 5 * p + 2;
    } else {
      assert 5 * p - 2 <= 5 * c <= 5 * t + 2;
    }
  }

  /** The composite lies between its two parts, is never a rounded half, and all scores stay within 0..100. */
  lemma GradeRange(qs: seq<Question>, answers: Answers)
    ensures var g := GradeOf(qs, answers);
            && 0 <= g.technicalScore <= 100 && 0 <= g.psychotechnicalScore <= 100 && 0 <= g.composite <= 100
            && (g.technicalScore <= g.composite <= g.psychotechnicalScore
                || g.psychotechnicalScore <= g.composite <= g.technicalScore)
            && -5 < 10 * g.composite - (6 * g.technicalScore + 4 * g.psychotechnicalScore) < 5
            && g.correct <= g.total
  {
    var technical, psychotechnical := Select(qs, (q: Question) => q.technical),
        Select(qs, (q: Question) => !q.technical);
    PercentRange(technical, answers);
    PercentRange(psychotechnical, answers);
    CompositeIsBetween(Percent(technical, answers), Percent(psychotechnical, answers));
  }

  // ---- What the scores are ----

  /** The places of the questions of a kind, and of those answered with their correct option. */
  ghost function PlacesOf(qs: seq<Question>, kind: Question -> bool): set<nat> {
    set k: nat | k < |qs| && kind(qs[k])
  }

  ghost function RightPlaces(qs: seq<Question>, kind: Question -> bool, answers: Answers): set<nat> {
    set k: nat | k < |qs| && kind(qs[k]) && qs[k].id in answers && answers[qs[k].id] == qs[k].correct
  }

  /** One more question at the end is one more place, or none. */
  lemma OneMorePlace(qs: seq<Question>, kind: Question -> bool, answers: Answers)
    requires qs != []
    ensures var n, q := |qs| - 1, qs[|qs| - 1];
            && |PlacesOf(qs, kind)| == |PlacesOf(qs[..n], kind)| + (if kind(q) then 1 else 0)
            && |RightPlaces(qs, kind, answers)|
               == |RightPlaces(qs[..n], kind, answers)| + (if kind(q) && IsRight(q, answers) then 1 else 0)
  {
    var n, q, init := |qs| - 1, qs[|qs| - 1], qs[..|qs| - 1];
    assert forall k :: 0 <= k < n ==> init[k] == qs[k];
    hide IsRight;
    OneMoreElement(PlacesOf(init, kind), PlacesOf(qs, kind), n, kind(q));
    RightIsRight(init, kind, answers);
    RightIsRight(qs, kind, answers);
    OneMoreElement(RightPlaces(init, kind, answers), RightPlaces(qs, kind, answers), n, kind(q) && IsRight(q, answers));
  }

  lemma RightIsRight(qs: seq<Question>, kind: Question -> bool, answers: Answers)
    ensures forall k: nat :: k in RightPlaces(qs, kind, answers)
                             <==> k < |qs| && kind(qs[k]) && IsRight(qs[k], answers)
  {
  }

  lemma CountOfLonger(qs: seq<Question>, q: Question, answers: Answers)
    ensures CountRight(qs + [q], answers) == CountRight(qs, answers) + if IsRight(q, answers) then 1 else 0
  {
    assert (qs + [q])[..|qs|] == qs;
  }

  lemma {:induction false} SelectCounts(qs: seq<Question>, kind: Question -> bool, answers: Answers)
    ensures |Select(qs, kind)| == |PlacesOf(qs, kind)|
    ensures CountRight(Select(qs, kind), answers) == |RightPlaces(qs, kind, answers)|
  {
    if qs != [] {
      var n := |qs| - 1;
      hide PlacesOf, RightPlaces, IsRight, CountRight;
      SelectCounts(qs[..n], kind, answers);
      OneMorePlace(qs, kind, answers);
      CountOfLonger(Select(qs[..n], kind), qs[n], answers);
      assert Select(qs[..n], kind) + [] == Select(qs[..n], kind);
    }
  }

  lemma {:induction false} SelectAll(qs: seq<Question>, kind: Question -> bool)
    requires forall k :: 0 <= k < |qs| ==> kind(qs[k])
    ensures Select(qs, kind) == qs
  {
    if qs != [] {
      SelectAll(qs[..|qs| - 1], kind);
    }
  }

  /** The score for r right answers out of n: the percentage, halves rounded up; 0 when there are no questions. */
  predicate IsScoreFor(score: int, r: nat, n: nat) {
    if n == 0 then score == 0 else n * (2 * score - 1) <= 200 * r < n * (2 * score + 1)
  }

  /** Right is what was answered with its correct option, and each score counts the questions of its own kind. */
  lemma ScoresCountRightAnswers(qs: seq<Question>, answers: Answers)
    ensures var g := GradeOf(qs, answers);
            var any, technical, psycho := (q: Question) => true, (q: Question) => q.technical,
                (q: Question) => !q.technical;
            && g.total == |qs| && g.correct == |RightPlaces(qs, any, answers)|
            && IsScoreFor(g.technicalScore, |RightPlaces(qs, technical, answers)|, |PlacesOf(qs, technical)|)
            && IsScoreFor(g.psychotechnicalScore, |RightPlaces(qs, psycho, answers)|, |PlacesOf(qs, psycho)|)
  {
    var any, technical, psycho := (q: Question) => true, (q: Question) => q.technical, (q: Question) => !q.technical;
    SelectAll(qs, any);
    SelectCounts(qs, any, answers);
    SelectCounts(qs, technical, answers);
    SelectCounts(qs, psycho, answers);
    PercentIsScore(Select(qs, technical), answers);
    PercentIsScore(Select(qs, psycho), answers);
  }

  lemma PercentIsScore(qs: seq<Question>, answers: Answers)
    ensures IsScoreFor(Percent(qs, answers), CountRight(qs, answers), |qs|)
  {
  }

  /** Answering with an option that is correct for no question of that id raises no score. */
  lemma WrongAnswerRaisesNothing(qs: seq<Question>, answers: Answers, id: string, option: int)
    requires forall k :: 0 <= k < |qs| && qs[k].id == id ==> qs[k].correct != option
    ensures var was, now := GradeOf(qs, answers), GradeOf(qs, answers[id := option]);
            && now.technicalScore <= was.technicalScore && now.psychotechnicalScore <= was.psychotechnicalScore
            && now.composite <= was.composite && now.correct <= was.correct
  {
    BetterAnswersNeverScoreLess(qs, answers[id := option], answers);
  }

  // ---- Feedback by domain ----

  function InDomain(qs: seq<Question>, d: string): nat {
    if qs == [] then 0 else InDomain(qs[..|qs| - 1], d) + if qs[|qs| - 1].domain == d then 1 else 0
  }

  function RightInDomain(qs: seq<Question>, d: string, answers: Answers): (n: nat)
    ensures n <= InDomain(qs, d)
  {
    if qs == [] then 0
    else RightInDomain(qs[..|qs| - 1], d, answers)
         + if qs[|qs| - 1].domain == d && IsRight(qs[|qs| - 1], answers) then 1 else 0
  }

  /** The domains in the order in which the questions first mention them. */
  function DomainsOf(qs: seq<Question>): (ds: seq<string>)
    ensures forall d :: d in ds <==> InDomain(qs, d) > 0
    ensures NoDup(ds)
  {
    if qs == [] then []
    else
      var before := DomainsOf(qs[..|qs| - 1]);
      if qs[|qs| - 1].domain in before then before else before + [qs[|qs| - 1].domain]
  }

  function TallyOf(qs: seq<Question>, d: string, answers: Answers): Tally {
    Tally(RightInDomain(qs, d, answers), InDomain(qs, d))
  }

  function LevelOf(t: Tally): Level {
    if 10 * t.ok >= 7 * t.total then Strong else if 10 * t.ok >= 4 * t.total then Medium else Weak
  }

  /** The levels cut the ratio of right answers at 0.7 and 0.4; one more right answer never lowers the level. */
  lemma LevelMeansRatio(t: Tally)
    requires 0 < t.total && t.ok <= t.total
    ensures var ratio := t.ok as real / t.total as real;
            && (LevelOf(t).Strong? <==> ratio >= 0.7)
            && (LevelOf(t).Weak? <==> ratio < 0.4)
    ensures LevelOf(t).Strong? ==> LevelOf(t.(ok := t.ok + 1)).Strong?
    ensures LevelOf(t.(ok := t.ok + 1)).Weak? ==> LevelOf(t).Weak?
  {
    QuotientBounds(t.ok as real, t.total as real, 0.7);
    QuotientBounds(t.ok as real, t.total as real, 0.4);
  }

  lemma OneMoreQuestion(qs: seq<Question>, q: Question, answers: Answers)
    ensures DomainsOf(qs + [q]) == DomainsOf(qs) + if q.domain in DomainsOf(qs) then [] else [q.domain]
    ensures forall d :: TallyOf(qs + [q], d, answers) == if d == q.domain
        then Counted(TallyOf(qs, d, answers), IsRight(q, answers))
                                                         else TallyOf(qs, d, answers)
    ensures q.domain !in DomainsOf(qs) ==> TallyOf(qs, q.domain, answers) == Tally(0, 0)
  {
    assert (qs + [q])[..|qs|] == qs;
  }

  function Counted(t: Tally, right: bool): Tally {
    Tally(t.ok + if right then 1 else 0, t.total + 1)
  }

  lemma NothingMentioned()
    ensures DomainsOf([]) == []
  {
  }

  lemma MentionedDomainsCount(qs: seq<Question>, answers: Answers)
    ensures forall d :: d in DomainsOf(qs) ==> TallyOf(qs, d, answers).total > 0
  {
  }

  method TallyByDomain(qs: seq<Question>, answers: Answers) returns (domains: seq<string>, byDomain: map<string, Tally>)
    ensures domains == DomainsOf(qs)
    ensures byDomain.Keys == set d | d in domains
    ensures forall d :: d in byDomain ==> byDomain[d] == TallyOf(qs, d, answers) && byDomain[d].total > 0
  {
    hide TallyOf, DomainsOf;
    domains, byDomain := [], map[];
    NothingMentioned();
    assert qs[..0] == [];
    for n := 0 to |qs|
      invariant domains == DomainsOf(qs[..n])
      invariant forall d :: d in byDomain <==> d in domains
      invariant forall d :: d in byDomain ==> byDomain[d] == TallyOf(qs[..n], d, answers)
    {
      var q := qs[n];
      assert qs[..n + 1] == qs[..n] + [q];
      OneMoreQuestion(qs[..n], q, answers);
      var entry := if q.domain in byDomain then byDomain[q.domain] else Tally(0, 0);
      entry := entry.(total := entry.total + 1);
      if IsRight(q, answers) {
        entry := entry.(ok := entry.ok + 1);
      }
      if q.domain !in byDomain {
        domains := domains + [q.domain];
      }
      byDomain := byDomain[q.domain := entry];
    }
    assert qs[..|qs|] == qs;
    MentionedDomainsCount(qs, answers);
  }

  /** The grade, and one entry of feedback for each domain the exam mentions, in order of first mention. */
  method GradeExam(qs: seq<Question>, answers: Answers) returns (grade: Grade, feedback: seq<(string, Level)>)
    ensures grade == GradeOf(qs, answers)
    ensures |feedback| == |DomainsOf(qs)|
    ensures forall k :: 0 <= k < |feedback| ==>
              var d := DomainsOf(qs)[k];
              feedback[k] == (d, LevelOf(TallyOf(qs, d, answers)))
  {
    grade := GradeOf(qs, answers);
    var domains, byDomain := TallyByDomain(qs, answers);
    assert forall k :: 0 <= k < |domains| ==> domains[k] in byDomain;
    feedback := seq(|domains|, k requires 0 <= k < |domains|
        && domains[k] in byDomain => (domains[k], LevelOf(byDomain[domains[k]])));
  }

  lemma {:induction false} TallyCounts(qs: seq<Question>, d: string, answers: Answers)
    ensures InDomain(qs, d) == |PlacesOf(qs, (q: Question) => q.domain == d)|
    ensures RightInDomain(qs, d, answers) == |RightPlaces(qs, (q: Question) => q.domain == d, answers)|
  {
    if qs != [] {
      hide PlacesOf, RightPlaces, IsRight;
      TallyCounts(qs[..|qs| - 1], d, answers);
      OneMorePlace(qs, (q: Question) => q.domain == d, answers);
    }
  }

  lemma {:induction false} Mention(qs: seq<Question>, d: string) returns (k: nat)
    requires d in DomainsOf(qs)
    ensures k < |qs| && qs[k].domain == d
  {
    k := |qs| - 1;
    if qs[k].domain != d {
      k := Mention(qs[..k], d);
    }
  }

  /** The domains come in the order of their first mentions: before any question of a later one is one of an earlier. */
  lemma {:induction false} DomainsInOrder(qs: seq<Question>, i: nat, j: nat, k: nat) returns (l: nat)
    requires i < j < |DomainsOf(qs)| && k < |qs| && qs[k].domain == DomainsOf(qs)[j]
    ensures l < k && qs[l].domain == DomainsOf(qs)[i]
  {
    var n := |qs| - 1;
    var ds := DomainsOf(qs[..n]);
    if j == |ds| {
      l := Mention(qs[..n], ds[i]);
      if k < n {
        assert qs[..n][k].domain !in ds;
        assert InDomain(qs[..n], qs[k].domain) > 0 by { MentionedCounts(qs[..n], k); }
      }
    } else if k < n {
      l := DomainsInOrder(qs[..n], i, j, k);
    } else {
      var k' := Mention(qs[..n], ds[j]);
      l := DomainsInOrder(qs[..n], i, j, k');
    }
  }

  lemma {:induction false} MentionedCounts(qs: seq<Question>, k: nat)
    requires k < |qs|
    ensures InDomain(qs, qs[k].domain) > 0
  {
    if k < |qs| - 1 {
      MentionedCounts(qs[..|qs| - 1], k);
    }
  }

  /**
   The feedback names the domains in the order of their first questions, each with the level of
   its share of right answers: strong from seven in ten, medium from four in ten, else weak.
   */
  lemma FeedbackMeans(qs: seq<Question>, answers: Answers, d: string)
    requires d in DomainsOf(qs)
    ensures var kind := (q: Question) => q.domain == d;
            var ok, total := |RightPlaces(qs, kind, answers)|, |PlacesOf(qs, kind)|;
            && total > 0
            && LevelOf(TallyOf(qs, d, answers))
               == (if 10 * ok >= 7 * total then Strong else if 10 * ok >= 4 * total then Medium else Weak)
  {
    TallyCounts(qs, d, answers);
  }

  function SumRight(domains: seq<string>, qs: seq<Question>, answers: Answers): nat {
    if domains == [] then 0 else RightInDomain(qs, domains[0], answers) + SumRight(domains[1..], qs, answers)
  }

  function SumTotal(domains: seq<string>, qs: seq<Question>): nat {
    if domains == [] then 0 else InDomain(qs, domains[0]) + SumTotal(domains[1..], qs)
  }

  /** One more question adds one to the sums of any list that names its domain once. */
  lemma {:induction false} SumsWithOneMore(domains: seq<string>, qs: seq<Question>, answers: Answers)
    requires qs != [] && NoDup(domains)
    ensures var q, rest := qs[|qs| - 1], qs[..|qs| - 1];
            && SumTotal(domains, qs) == SumTotal(domains, rest) + (if q.domain in domains then 1 else 0)
            && SumRight(domains, qs, answers)
               == SumRight(domains, rest, answers) + (if q.domain in domains && IsRight(q, answers) then 1 else 0)
  {
    if domains != [] {
      SumsWithOneMore(domains[1..], qs, answers);
      assert domains[0] !in domains[1..];
    }
  }

  lemma {:induction false} SumsOfNone(domains: seq<string>, answers: Answers)
    ensures SumTotal(domains, []) == 0 && SumRight(domains, [], answers) == 0
  {
    if domains != [] {
      SumsOfNone(domains[1..], answers);
    }
  }

  lemma {:induction false} SumsOverMoreDomains(domains: seq<string>, qs: seq<Question>, answers: Answers)
    requires NoDup(domains) && forall d :: InDomain(qs, d) > 0 ==> d in domains
    ensures SumTotal(domains, qs) == |qs| && SumRight(domains, qs, answers) == CountRight(qs, answers)
    decreases |qs|
  {
    if qs == [] {
      SumsOfNone(domains, answers);
    } else {
      var q, rest := qs[|qs| - 1], qs[..|qs| - 1];
      assert InDomain(qs, q.domain) > 0;
      SumsOverMoreDomains(domains, rest, answers);
      SumsWithOneMore(domains, qs, answers);
    }
  }

  /** The domain counts add up to the overall counts. */
  lemma DomainsAddUp(qs: seq<Question>, answers: Answers)
    ensures SumTotal(DomainsOf(qs), qs) == GradeOf(qs, answers).total
    ensures SumRight(DomainsOf(qs), qs, answers) == GradeOf(qs, answers).correct
  {
    SumsOverMoreDomains(DomainsOf(qs), qs, answers);
  }

  // ---- The stored score ----

  /** `technicalScore` and `psychotechnicalScore` are absent when the provider does not split its result. */
  datatype AssessmentResult = AssessmentResult(
    score: real, maxScore: real, technicalScore: Option<real>, psychotechnicalScore: Option<real>)

  datatype Weights = Weights(technique: real, psychotechnique: real)

  const DEFAULT_WEIGHTS: Weights := Weights(60.0, 40.0)

  /** `Math.round(x)` */
  function Round(x: real): (r: int)
    ensures x - 0.5 < r as real <= x + 0.5
  {
    (x + 0.5).Floor
  }

  function Weighted(technical: real, psychotechnical: real, w: Weights): real
    requires w.technique + w.psychotechnique > 0.0
  {
    (technical * w.technique + psychotechnical * w.psychotechnique) / (w.technique + w.psychotechnique)
  }

  /** The stored value, in hundredths. */
  function ComputeCompositeScore(result: AssessmentResult, w: Weights): int {
    if result.technicalScore.Some? && result.psychotechnicalScore.Some? then
      if w.technique + w.psychotechnique <= 0.0 then 0
      else Round(Weighted(result.technicalScore.value, result.psychotechnicalScore.value, w) * 100.0)
    else if result.maxScore > 0.0 then Round(result.score / result.maxScore * 100.0 * 100.0)
    else 0
  }

  predicate Between(x: real, a: real, b: real) {
    a <= x <= b || b <= x <= a
  }

  lemma QuotientBounds(num: real, den: real, bound: real)
    requires den > 0.0
    ensures num / den <= bound <==> num <= bound * den
    ensures bound <= num / den <==> bound * den <= num
  {
    var q := num / den;
    assert q * den == num;
    if q <= bound { assert q * den <= bound * den; } else { assert q * den > bound * den; }
    if bound <= q { assert bound * den <= q * den; } else { assert bound * den > q * den; }
  }

  lemma ProductSign(a: real, b: real)
    ensures a > 0.0 ==> (a * b >= 0.0 <==> b >= 0.0) && (a * b <= 0.0 <==> b <= 0.0)
  {
  }

  lemma WeightedBelow(t: real, p: real, w: Weights)
    requires w.technique + w.psychotechnique > 0.0 && t < p
    ensures t <= Weighted(t, p, w) <==> w.psychotechnique >= 0.0
    ensures Weighted(t, p, w) <= p <==> w.technique >= 0.0
  {
    var a, b := w.technique, w.psychotechnique;
    QuotientBounds(t * a + p * b, a + b, t);
    QuotientBounds(t * a + p * b, a + b, p);
    assert t * a + p * b - t * (a + b) == (p - t) * b;
    assert p * (a + b) - (t * a + p * b) == (p - t) * a;
    ProductSign(p - t, a);
    ProductSign(p - t, b);
  }

  lemma WeightedIsSymmetric(t: real, p: real, w: Weights)
    requires w.technique + w.psychotechnique > 0.0
    ensures Weighted(t, p, w) == Weighted(p, t, Weights(w.psychotechnique, w.technique))
  {
  }

  lemma WeightedOfEqual(t: real, w: Weights)
    requires w.technique + w.psychotechnique > 0.0
    ensures Weighted(t, t, w) == t
  {
    assert t * w.technique + t * w.psychotechnique == t * (w.technique + w.psychotechnique);
  }

  /** Weighing two different sub-scores stays between them exactly when neither weight is negative. */
  lemma WeightedIsBetweenIff(t: real, p: real, w: Weights)
    requires w.technique + w.psychotechnique > 0.0 && t != p
    ensures Between(Weighted(t, p, w), t, p) <==> w.technique >= 0.0 && w.psychotechnique >= 0.0
  {
    if t < p {
      WeightedBelow(t, p, w);
    } else {
      WeightedIsSymmetric(t, p, w);
      WeightedBelow(p, t, Weights(w.psychotechnique, w.technique));
    }
  }

  lemma RoundIsMonotone(x: real, y: real)
    requires x <= y
    ensures Round(x) <= Round(y)
  {
  }

  /**
   For any sub-scores and non-negative weights with a positive sum, the stored hundredths lie
   between the sub-scores in hundredths; whole sub-scores need no rounding for that.
   */
  lemma StoredScoreIsBetween(result: AssessmentResult, w: Weights, t: real, p: real)
    requires result.technicalScore == Some(t) && result.psychotechnicalScore == Some(p)
    requires w.technique >= 0.0 && w.psychotechnique >= 0.0 && w.technique + w.psychotechnique > 0.0
    ensures var stored := ComputeCompositeScore(result, w);
            Round(t * 100.0) <= stored <= Round(p * 100.0) || Round(p * 100.0) <= stored <= Round(t * 100.0)
    ensures forall n: int :: t == n as real ==> Round(t * 100.0) == 100 * n
    ensures forall n: int :: p == n as real ==> Round(p * 100.0) == 100 * n
  {
    hide Round;
    var x := Weighted(t, p, w);
    if t == p {
      WeightedOfEqual(t, w);
    } else {
      WeightedIsBetweenIff(t, p, w);
    }
    if t <= p {
      RoundIsMonotone(t * 100.0, x * 100.0);
      RoundIsMonotone(x * 100.0, p * 100.0);
    } else {
      RoundIsMonotone(p * 100.0, x * 100.0);
      RoundIsMonotone(x * 100.0, t * 100.0);
    }
    forall n: int
      ensures t == n as real ==> Round(t * 100.0) == 100 * n
      ensures p == n as real ==> Round(p * 100.0) == 100 * n
    {
      WholeNeedsNoRounding(n);
    }
  }

  lemma WholeNeedsNoRounding(n: int)
    ensures Round(n as real * 100.0) == 100 * n
  {
    assert n as real * 100.0 == (100 * n) as real;
  }

  /** Without both sub-scores the provider's own share of its maximum is stored, to the nearest hundredth, or 0. */
  lemma UnsplitScoreIsItsShare(result: AssessmentResult, w: Weights)
    requires result.technicalScore.None? || result.psychotechnicalScore.None?
    ensures var stored := ComputeCompositeScore(result, w) as real;
            if result.maxScore > 0.0
            then var share := result.score / result.maxScore * 10000.0; share - 0.5 < stored <= share + 0.5
            else stored == 0.0
  {
    if result.maxScore > 0.0 {
      assert result.score / result.maxScore * 100.0 * 100.0 == result.score / result.maxScore * 10000.0;
    }
  }

  /** With both, and weights that weigh anything, it is the weighted mean to the nearest hundredth. */
  lemma SplitScoreIsTheMean(result: AssessmentResult, w: Weights, t: real, p: real)
    requires result.technicalScore == Some(t) && result.psychotechnicalScore == Some(p)
    ensures var stored, total := ComputeCompositeScore(result, w) as real, w.technique + w.psychotechnique;
            if total > 0.0 then
              var mean := (t * w.technique + p * w.psychotechnique) / total * 100.0; mean - 0.5 < stored <= mean + 0.5
            else stored == 0.0
  {
    if w.technique + w.psychotechnique > 0.0 {
      hide Round;
      var total := w.technique + w.psychotechnique;
      var mean := Weighted(t, p, w) * 100.0;
      assert mean == (t * w.technique + p * w.psychotechnique) / total * 100.0;
      assert ComputeCompositeScore(result, w) == Round(mean);
      assert mean - 0.5 < Round(mean) as real <= mean + 0.5;
    }
  }

  /** What a local exam hands over to be stored. */
  function LocalResult(g: Grade): AssessmentResult {
    AssessmentResult(g.composite as real, 100.0, Some(g.technicalScore as real), Some(g.psychotechnicalScore as real))
  }

  lemma DefaultMeanIsWhole(t: int, p: int)
    ensures Weighted(t as real, p as real, DEFAULT_WEIGHTS) * 100.0 == (60 * t + 40 * p) as real
  {
    var sum := t as real * 60.0 + p as real * 40.0;
    assert sum / 100.0 * 100.0 == sum;
  }

  /** Under the default weights the stored hundredths are exact, and the candidate is told the same score rounded. */
  lemma StoredScoreMatchesComposite(qs: seq<Question>, answers: Answers)
    ensures var g := GradeOf(qs, answers);
            var stored := ComputeCompositeScore(LocalResult(g), DEFAULT_WEIGHTS);
            && stored == 60 * g.technicalScore + 40 * g.psychotechnicalScore
            && g.composite == RoundHalfUp(stored, 100)
  {
    var g := GradeOf(qs, answers);
    hide Percent, RoundHalfUp, Round, CountRight, Weighted;
    var whole := 60 * g.technicalScore + 40 * g.psychotechnicalScore;
    DefaultMeanIsWhole(g.technicalScore, g.psychotechnicalScore);
    assert whole as real - 0.5 < Round(whole as real) as real <= whole as real + 0.5;
    RoundHalfUpUnique(whole, 100, g.composite);
  }
}
