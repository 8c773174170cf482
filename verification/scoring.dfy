/**
 * The local scorer: category-weighted average of the answered weights,
 * scaled to a percentage, plus a maturity bonus for many best answers,
 * together with the generated recommendations.
 *
 * The engine averages each category list and re-weights it by its
 * multiplier and length. The reference definition below instead tallies
 * question by question; `Regroup` proves the two agree.
 */
module Scoring {
  import opened Js
  import opened Questions
  import opened Categories
  import opened Suggestions

  /** A percentage, or `NaN` when nothing was answered (0 / 0 in the source). */
  datatype Percent = Score(value: int) | NaN

  /** `{ percent, notes, categoryScores, maturityBonus }` */
  datatype ScoreResult = ScoreResult(percent: Percent, notes: seq<string>, categoryScores: CategoryScores, maturityBonus: int)

  // ---------------------------------------------------------------------
  // Reference definition, question by question.
  // ---------------------------------------------------------------------

  /** Weighted points and weight mass, summed over questions. */
  datatype Tally = Tally(score: real, weight: real) {
    function Plus(other: Tally): Tally {
      Tally(score + other.score, weight + other.weight)
    }
  }

  const NoTally := Tally(0.0, 0.0)

  /** One question's share: its weight times its category's multiplier, and the multiplier. */
  function QuestionTally(a: Answers, q: Question): Tally {
    if q.id in a then
      var c := CategoryOf(q.id);
      Tally(Scaled(c, a[q.id].weight), Scaled(c, 1.0))
    else NoTally
  }

  function TallyOf(a: Answers, qs: seq<Question>): Tally
    decreases |qs|
  {
    if qs == [] then NoTally else TallyOf(a, qs[..|qs| - 1]).Plus(QuestionTally(a, qs[|qs| - 1]))
  }

  /** `questions.filter(item => answers[item.id]?.weight === 1).length` */
  function PerfectAnswers(a: Answers, qs: seq<Question>): (n: nat)
    ensures n <= |qs|
    decreases |qs|
  {
    if qs == [] then 0
    else PerfectAnswers(a, qs[..|qs| - 1]) + (if qs[|qs| - 1].id in a && a[qs[|qs| - 1].id].weight == 1.0 then 1 else 0)
  }

  /** 5 points from eight best answers, 3 from six, none below. */
  function MaturityBonus(perfect: nat): (bonus: int)
    ensures bonus == 0 || bonus == 3 || bonus == 5
    ensures bonus == 5 <==> perfect >= 8
    ensures bonus == 0 <==> perfect < 6
  {
    if perfect >= 8 then 5 else if perfect >= 6 then 3 else 0
  }

  /** `Math.round((totalScore / totalWeight) * 100)` */
  function BasePercent(t: Tally): (p: Percent)
    ensures p == NaN <==> t.weight == 0.0
  {
    if t.weight == 0.0 then NaN else Score(Round(t.score / t.weight * 100.0))
  }

  /** `Math.min(100, percent + maturityBonus)`; NaN stays NaN. */
  function WithBonus(p: Percent, bonus: int): (r: Percent)
    ensures r == NaN <==> p == NaN
    ensures r.Score? ==> r.value <= 100
    ensures r.Score? && p.value + bonus <= 100 ==> r.value == p.value + bonus
    ensures r.Score? && p.value + bonus > 100 ==> r.value == 100
  {
    match p
    case NaN => NaN
    case Score(v) => Score(if v + bonus < 100 then v + bonus else 100)
  }

  /** The local percentage: NaN when no weight was tallied, otherwise at most 100. */
  function FinalPercent(a: Answers, qs: seq<Question>): (p: Percent)
    ensures p == NaN <==> TallyOf(a, qs).weight == 0.0
    ensures p.Score? ==> p.value <= 100
  {
    WithBonus(BasePercent(TallyOf(a, qs)), MaturityBonus(PerfectAnswers(a, qs)))
  }

  /** What `localScoreAndNotes(answers, questions)` returns. */
  function ScoreOf(a: Answers, qs: seq<Question>): (r: ScoreResult)
    ensures r.percent.Score? ==> r.percent.value <= 100
    ensures |r.notes| <= 10
    ensures r.maturityBonus == 0 || r.maturityBonus == 3 || r.maturityBonus == 5
  {
    var cs := Categorized(a, qs);
    ScoreResult(FinalPercent(a, qs), Recommendations(a, qs, cs), cs, MaturityBonus(PerfectAnswers(a, qs)))
  }

  // ---------------------------------------------------------------------
  // The engine, step by step.
  // ---------------------------------------------------------------------

  /** `Object.entries(categoryScores)` visits the categories in this order. */
  const CategoryOrder: seq<Category> := [Foundation, Advanced, Culture]

  /** `totalScore` after visiting the first `n` categories: each average times multiplier times count. */
  function GroupedScore(cs: CategoryScores, n: nat): real
    requires n <= 3
  {
    if n == 0 then 0.0
    else
      var c := CategoryOrder[n - 1];
      GroupedScore(cs, n - 1) + Scaled(c, Sum(cs.Of(c)))
  }

  /** `totalWeight` after visiting the first `n` categories. */
  function GroupedWeight(cs: CategoryScores, n: nat): real
    requires n <= 3
  {
    if n == 0 then 0.0
    else
      var c := CategoryOrder[n - 1];
      GroupedWeight(cs, n - 1) + Scaled(c, |cs.Of(c)| as real)
  }

  /** After all three categories: each category's sum and count, scaled by its multiplier. */
  lemma GroupedTotals(cs: CategoryScores)
    ensures GroupedScore(cs, 3) == Scaled(Foundation, Sum(cs.foundation)) + Scaled(Advanced, Sum(cs.advanced)) + Scaled(Culture, Sum(cs.culture))
    ensures GroupedWeight(cs, 3) == Scaled(Foundation, |cs.foundation| as real) + Scaled(Advanced, |cs.advanced| as real) + Scaled(Culture, |cs.culture| as real)
  {
    assert GroupedScore(cs, 1) == Scaled(Foundation, Sum(cs.foundation));
    assert GroupedWeight(cs, 1) == Scaled(Foundation, |cs.foundation| as real);
  }

  /** `questions.forEach(...)`: pushes each answered weight onto its category's list. */
  method Categorize(a: Answers, qs: seq<Question>) returns (cs: CategoryScores)
    ensures cs == Categorized(a, qs)
  {
    var foundation: seq<real> := [];
    var advanced: seq<real> := [];
    var culture: seq<real> := [];
    for i := 0 to |qs|
      invariant foundation == WeightsIn(a, qs[..i], Foundation)
      invariant advanced == WeightsIn(a, qs[..i], Advanced)
      invariant culture == WeightsIn(a, qs[..i], Culture)
    {
      var item := qs[i];
      assert qs[..i + 1][..i] == qs[..i];
      if item.id in a {
        var picked := a[item.id];
        match CategoryOf(item.id)
        case Foundation => foundation := foundation + [picked.weight];
        case Advanced => advanced := advanced + [picked.weight];
        case Culture => culture := culture + [picked.weight];
      }
    }
    assert qs[..|qs|] == qs;
    cs := CategoryScores(foundation, advanced, culture);
  }

  /** The loop over the category lists that accumulates `totalScore` and `totalWeight`. */
  method WeightedTotals(cs: CategoryScores) returns (totalScore: real, totalWeight: real)
    ensures totalScore == GroupedScore(cs, 3)
    ensures totalWeight == GroupedWeight(cs, 3)
  {
    totalScore := 0.0;
    totalWeight := 0.0;
    for i := 0 to 3
      invariant totalScore == GroupedScore(cs, i)
      invariant totalWeight == GroupedWeight(cs, i)
    {
      var category := CategoryOrder[i];
      totalScore, totalWeight := AddCategory(totalScore, totalWeight, cs.Of(category), category);
    }
  }

  /** One step of that loop: a non-empty list adds its average times multiplier times count. */
  method AddCategory(totalScore: real, totalWeight: real, scores: seq<real>, category: Category)
    returns (newScore: real, newWeight: real)
    ensures newScore == totalScore + Scaled(category, Sum(scores))
    ensures newWeight == totalWeight + Scaled(category, |scores| as real)
  {
    newScore, newWeight := totalScore, totalWeight;
    if |scores| > 0 {
      var n := |scores| as real;
      var categoryAvg := Sum(scores) / n;
      var weight := Multiplier(category);
      Reweight(Sum(scores), n, category);
      newScore := newScore + categoryAvg * weight * n;
      newWeight := newWeight + weight * n;
    }
  }

  /** Re-weighting an average of `n` values summing to `total` by its count recovers the scaled sum. */
  lemma Reweight(total: real, n: real, c: Category)
    requires n > 0.0
    ensures total / n * Multiplier(c) * n == Scaled(c, total)
    ensures Multiplier(c) * n == Scaled(c, n)
  {
    var avg := total / n;
    assert avg * n == total;
    ScaledIsProduct(c, total);
    ScaledIsProduct(c, n);
    calc {
      avg * Multiplier(c) * n;
      Multiplier(c) * (avg * n);
    }
  }

  /** The percentage and the maturity bonus, from the category lists of `a` over `qs`. */
  method Percentage(a: Answers, qs: seq<Question>, categoryScores: CategoryScores) returns (percent: Percent, maturityBonus: int)
    requires categoryScores == Categorized(a, qs)
    ensures percent == FinalPercent(a, qs)
    ensures maturityBonus == MaturityBonus(PerfectAnswers(a, qs))
  {
    var totalScore, totalWeight := WeightedTotals(categoryScores);
    Regroup(a, qs);
    if totalWeight == 0.0 {
      percent := NaN;
    } else {
      percent := Score(Round(totalScore / totalWeight * 100.0));
    }

    var perfectAnswers := PerfectAnswers(a, qs);
    maturityBonus := if perfectAnswers >= 8 then 5 else if perfectAnswers >= 6 then 3 else 0;
    if percent.Score? {
      percent := Score(if percent.value + maturityBonus < 100 then percent.value + maturityBonus else 100);
    }
  }

  /** `localScoreAndNotes(answers, questions)` */
  method LocalScoreAndNotes(a: Answers, qs: seq<Question>) returns (r: ScoreResult)
    ensures r == ScoreOf(a, qs)
  {
    var categoryScores := Categorize(a, qs);
    var percent, maturityBonus := Percentage(a, qs, categoryScores);
    var notes := GenerateDynamicSuggestions(a, qs, categoryScores);
    r := ScoreResult(percent, notes, categoryScores, maturityBonus);
  }

  // ---------------------------------------------------------------------
  // Properties.
  // ---------------------------------------------------------------------

  /**
   * Grouping by category changes nothing: the engine's totals are the
   * per-question weighted points and weight mass.
   */
  lemma Regroup(a: Answers, qs: seq<Question>)
    ensures GroupedScore(Categorized(a, qs), 3) == TallyOf(a, qs).score
    ensures GroupedWeight(Categorized(a, qs), 3) == TallyOf(a, qs).weight
  {
    GroupedTotals(Categorized(a, qs));
    RegroupScore(a, qs);
    RegroupWeight(a, qs);
  }

  lemma {:induction false} RegroupScore(a: Answers, qs: seq<Question>)
    ensures TallyOf(a, qs).score
         == Scaled(Foundation, Sum(WeightsIn(a, qs, Foundation)))
          + Scaled(Advanced, Sum(WeightsIn(a, qs, Advanced)))
          + Scaled(Culture, Sum(WeightsIn(a, qs, Culture)))
    decreases |qs|
  {
    if qs != [] {
      var init := qs[..|qs| - 1];
      RegroupScore(a, init);
      SumWeightsStep(a, qs, Foundation);
      SumWeightsStep(a, qs, Advanced);
      SumWeightsStep(a, qs, Culture);
    }
  }

  /** One more question adds its weight to its own category's sum and nothing to the others. */
  lemma SumWeightsStep(a: Answers, qs: seq<Question>, c: Category)
    requires qs != []
    ensures Sum(WeightsIn(a, qs, c))
         == Sum(WeightsIn(a, qs[..|qs| - 1], c))
          + (if qs[|qs| - 1].id in a && CategoryOf(qs[|qs| - 1].id) == c then a[qs[|qs| - 1].id].weight else 0.0)
  {
    var q := qs[|qs| - 1];
    var init := qs[..|qs| - 1];
    if q.id in a && CategoryOf(q.id) == c {
      assert WeightsIn(a, qs, c) == WeightsIn(a, init, c) + [a[q.id].weight];
      SumAppend(WeightsIn(a, init, c), a[q.id].weight);
    } else {
      assert WeightsIn(a, qs, c) == WeightsIn(a, init, c);
    }
  }

  lemma {:induction false} RegroupWeight(a: Answers, qs: seq<Question>)
    ensures TallyOf(a, qs).weight
         == Scaled(Foundation, |WeightsIn(a, qs, Foundation)| as real)
          + Scaled(Advanced, |WeightsIn(a, qs, Advanced)| as real)
          + Scaled(Culture, |WeightsIn(a, qs, Culture)| as real)
    decreases |qs|
  {
    if qs != [] {
      var init := qs[..|qs| - 1];
      var q := qs[|qs| - 1];
      RegroupWeight(a, init);
      if q.id in a {
        var c := CategoryOf(q.id);
        assert TallyOf(a, qs).weight == TallyOf(a, init).weight + Scaled(c, 1.0);
        assert |WeightsIn(a, qs, c)| == |WeightsIn(a, init, c)| + 1;
      }
    }
  }

  /** Points never exceed the weight mass when every weight lies in [0, 1]. */
  lemma {:induction false} TallyBounds(a: Answers, qs: seq<Question>)
    requires UnitWeights(a)
    ensures 0.0 <= TallyOf(a, qs).score <= TallyOf(a, qs).weight
    decreases |qs|
  {
    if qs != [] {
      TallyBounds(a, qs[..|qs| - 1]);
    }
  }

  /** Each question adds at most 1.2 (a foundation question) to the weight mass. */
  lemma {:induction false} TallyWeightBound(a: Answers, qs: seq<Question>)
    ensures 0.0 <= TallyOf(a, qs).weight <= 1.2 * (|qs| as real)
    decreases |qs|
  {
    if qs != [] {
      TallyWeightBound(a, qs[..|qs| - 1]);
    }
  }

  /** The weight mass is zero exactly when no question was answered. */
  lemma {:induction false} NothingAnsweredIff(a: Answers, qs: seq<Question>)
    ensures TallyOf(a, qs).weight >= 0.0
    ensures TallyOf(a, qs).weight == 0.0 <==> forall k :: 0 <= k < |qs| ==> qs[k].id !in a
    decreases |qs|
  {
    if qs != [] {
      var init := qs[..|qs| - 1];
      NothingAnsweredIff(a, init);
      if forall k :: 0 <= k < |init| ==> init[k].id !in a {
        assert forall k :: 0 <= k < |init| ==> qs[k] == init[k];
      } else {
        var k :| 0 <= k < |init| && init[k].id in a;
        assert qs[k] == init[k];
      }
    }
  }

  /** The score is NaN exactly when no question was answered. */
  lemma PercentNaNIff(a: Answers, qs: seq<Question>)
    ensures FinalPercent(a, qs) == NaN <==> forall k :: 0 <= k < |qs| ==> qs[k].id !in a
  {
    NothingAnsweredIff(a, qs);
  }

  /** With weights in [0, 1] a numeric score lies in [0, 100]. */
  lemma PercentInRange(a: Answers, qs: seq<Question>)
    requires UnitWeights(a)
    ensures FinalPercent(a, qs).Score? ==> 0 <= FinalPercent(a, qs).value <= 100
  {
    TallyBounds(a, qs);
    BasePercentInRange(TallyOf(a, qs));
  }

  /** Points within the weight mass give a base percentage in [0, 100]. */
  lemma BasePercentInRange(t: Tally)
    requires 0.0 <= t.score <= t.weight
    ensures BasePercent(t).Score? ==> 0 <= BasePercent(t).value <= 100
  {
    if t.weight != 0.0 {
      var ratio := t.score / t.weight;
      RatioInUnit(t.score, t.weight);
      RoundMonotone(0.0, ratio * 100.0);
      RoundMonotone(ratio * 100.0, 100.0);
      RoundOfInt(0);
      RoundOfInt(100);
    }
  }

  lemma RatioInUnit(x: real, y: real)
    requires 0.0 <= x <= y && y > 0.0
    ensures 0.0 <= x / y <= 1.0
  {
    var q := x / y;
    assert q * y == x;
    assert q <= 1.0 by {
      assert (1.0 - q) * y == y - x;
    }
  }

  /** The bonus only raises the score, by at most 5 points, and never above 100. */
  lemma BonusEffect(p: Percent, bonus: int)
    requires p.Score? && p.value <= 100
    requires 0 <= bonus <= 5
    ensures WithBonus(p, bonus).Score?
    ensures p.value <= WithBonus(p, bonus).value <= p.value + 5
    ensures WithBonus(p, bonus).value <= 100
  {
  }

  /** More best answers never lower the bonus. */
  lemma MaturityBonusMonotone(m: nat, n: nat)
    requires m <= n
    ensures MaturityBonus(m) <= MaturityBonus(n)
  {
  }

  /** When every answer is the best one and at least one question was answered, the score is 100. */
  lemma {:induction false} AllBestTally(a: Answers, qs: seq<Question>)
    requires forall id :: id in a ==> a[id].weight == 1.0
    ensures TallyOf(a, qs).score == TallyOf(a, qs).weight
    decreases |qs|
  {
    if qs != [] {
      AllBestTally(a, qs[..|qs| - 1]);
    }
  }

  lemma AllBestScoresHundred(a: Answers, qs: seq<Question>)
    requires forall id :: id in a ==> a[id].weight == 1.0
    requires exists k :: 0 <= k < |qs| && qs[k].id in a
    ensures FinalPercent(a, qs) == Score(100)
  {
    AllBestTally(a, qs);
    NothingAnsweredIff(a, qs);
    var t := TallyOf(a, qs);
    assert t.score / t.weight == 1.0;
    RoundOfInt(100);
  }

  /** When every answer is the worst one and at least one question was answered, the score is 0 with no bonus. */
  lemma {:induction false} AllWorstTally(a: Answers, qs: seq<Question>)
    requires forall id :: id in a ==> a[id].weight == 0.0
    ensures TallyOf(a, qs).score == 0.0
    ensures PerfectAnswers(a, qs) == 0
    decreases |qs|
  {
    if qs != [] {
      AllWorstTally(a, qs[..|qs| - 1]);
    }
  }

  lemma AllWorstScoresZero(a: Answers, qs: seq<Question>)
    requires forall id :: id in a ==> a[id].weight == 0.0
    requires exists k :: 0 <= k < |qs| && qs[k].id in a
    ensures FinalPercent(a, qs) == Score(0)
    ensures MaturityBonus(PerfectAnswers(a, qs)) == 0
  {
    AllWorstTally(a, qs);
    NothingAnsweredIff(a, qs);
    RoundOfInt(0);
  }

  // ---------------------------------------------------------------------
  // Question order does not matter: the quiz shuffles its questions, and
  // the score of a shuffled list is the score of the catalog order.
  // ---------------------------------------------------------------------

  lemma {:induction false} TallyAppend(a: Answers, s: seq<Question>, t: seq<Question>)
    ensures TallyOf(a, s + t) == TallyOf(a, s).Plus(TallyOf(a, t))
    decreases |t|
  {
    if t == [] {
      assert s + t == s;
    } else {
      var init := t[..|t| - 1];
      TallyAppend(a, s, init);
      assert (s + t)[..|s + t| - 1] == s + init;
      assert (s + t)[|s + t| - 1] == t[|t| - 1];
    }
  }

  lemma {:induction false} PerfectAppend(a: Answers, s: seq<Question>, t: seq<Question>)
    ensures PerfectAnswers(a, s + t) == PerfectAnswers(a, s) + PerfectAnswers(a, t)
    decreases |t|
  {
    if t == [] {
      assert s + t == s;
    } else {
      var init := t[..|t| - 1];
      PerfectAppend(a, s, init);
      assert (s + t)[..|s + t| - 1] == s + init;
    }
  }

  /** Removing one question from anywhere subtracts exactly its share. */
  lemma TallyRemove(a: Answers, ps: seq<Question>, i: nat)
    requires i < |ps|
    ensures TallyOf(a, ps) == TallyOf(a, ps[..i] + ps[i + 1..]).Plus(QuestionTally(a, ps[i]))
  {
    var left, right := ps[..i], ps[i + 1..];
    var l, r, x := TallyOf(a, left), TallyOf(a, right), QuestionTally(a, ps[i]);
    assert ps == (left + [ps[i]]) + right;
    assert [ps[i]][..0] == [];
    assert TallyOf(a, [ps[i]]) == x;
    TallyAppend(a, left + [ps[i]], right);
    TallyAppend(a, left, [ps[i]]);
    TallyAppend(a, left, right);
    assert TallyOf(a, ps) == l.Plus(x).Plus(r);
    PlusSwap(l, x, r);
  }

  lemma PlusSwap(l: Tally, x: Tally, r: Tally)
    ensures l.Plus(x).Plus(r) == l.Plus(r).Plus(x)
  {
  }

  lemma PerfectRemove(a: Answers, ps: seq<Question>, i: nat)
    requires i < |ps|
    ensures PerfectAnswers(a, ps) == PerfectAnswers(a, ps[..i] + ps[i + 1..]) + PerfectAnswers(a, [ps[i]])
  {
    var left, right := ps[..i], ps[i + 1..];
    assert ps == (left + [ps[i]]) + right;
    PerfectAppend(a, left + [ps[i]], right);
    PerfectAppend(a, left, [ps[i]]);
    PerfectAppend(a, left, right);
  }

  /** Reordering the questions leaves the tally unchanged. */
  lemma {:induction false} TallyPermutation(a: Answers, qs: seq<Question>, ps: seq<Question>)
    requires multiset(qs) == multiset(ps)
    ensures TallyOf(a, qs) == TallyOf(a, ps)
    decreases |qs|
  {
    if qs == [] {
      assert |ps| == |multiset(ps)| == 0;
    } else {
      var init := qs[..|qs| - 1];
      var x := qs[|qs| - 1];
      var i := MatchLast(qs, ps);
      TallyPermutation(a, init, ps[..i] + ps[i + 1..]);
      TallyRemove(a, ps, i);
      assert qs == init + [x];
    }
  }

  /** Reordering the questions leaves the number of best answers unchanged. */
  lemma {:induction false} PerfectPermutation(a: Answers, qs: seq<Question>, ps: seq<Question>)
    requires multiset(qs) == multiset(ps)
    ensures PerfectAnswers(a, qs) == PerfectAnswers(a, ps)
    decreases |qs|
  {
    if qs == [] {
      assert |ps| == |multiset(ps)| == 0;
    } else {
      var init := qs[..|qs| - 1];
      var x := qs[|qs| - 1];
      var i := MatchLast(qs, ps);
      PerfectPermutation(a, init, ps[..i] + ps[i + 1..]);
      PerfectRemove(a, ps, i);
      assert qs == init + [x];
      PerfectAppend(a, init, [x]);
    }
  }

  /** The score and the bonus do not depend on the order the questions were asked in. */
  lemma ScoreIgnoresOrder(a: Answers, qs: seq<Question>, ps: seq<Question>)
    requires multiset(qs) == multiset(ps)
    ensures FinalPercent(a, qs) == FinalPercent(a, ps)
    ensures MaturityBonus(PerfectAnswers(a, qs)) == MaturityBonus(PerfectAnswers(a, ps))
  {
    TallyPermutation(a, qs, ps);
    PerfectPermutation(a, qs, ps);
  }
}
