/**
 * The quiz session of the single-page application: starting a shuffled
 * assessment, recording each choice, finishing with the final score and its
 * maturity tier, and the threshold ladders the results page shows.
 */
module App {
  import opened Js
  import opened Questions
  import opened Categories
  import opened Suggestions
  import opened Scoring
  import opened Helpers
  import Server

  // ---------------------------------------------------------------------
  // Final score and tiers.
  // ---------------------------------------------------------------------

  /** The local percentage as the JavaScript number it is. */
  function NumberOf(p: Percent): (n: Number)
    ensures n.Finite? <==> p.Score?
    ensures n.Finite? ==> n.value == p.value as real
  {
    match p
    case Score(v) => Finite(v as real)
    case NaN => NotANumber
  }

  /**
   * `Math.max(0, Math.min(100, Math.round(ai.score ?? percent)))`. A `NaN`
   * passes through rounding and both clamps unchanged.
   */
  function FinalScore(ai: AiGrade, percent: Percent): (s: Percent)
    ensures s.Score? ==> 0 <= s.value <= 100
    ensures s.NaN? <==> ai.score == Some(NotANumber) || (ai.score.None? && percent.NaN?)
    ensures ai.score.None? && percent.Score? && 0 <= percent.value <= 100 ==> s == percent
    ensures ai.score.Some? && ai.score.value.Finite? ==> s == Score(ClampInt(0, 100, Round(ai.score.value.value)))
  {
    match ai.score.GetOr(NumberOf(percent))
    case Finite(x) =>
      RoundOfInt(if percent.Score? then percent.value else 0);
      Score(ClampInt(0, 100, Round(x)))
    case NotANumber => NaN
  }

  datatype Tier = Platinum | Gold | Silver | Bronze | Developing

  /** The tier ladder of `finish`; every comparison with `NaN` is false, so `NaN` is Developing. */
  function TierOf(score: Percent): (t: Tier)
    ensures t == Platinum <==> score.Score? && score.value >= 95
    ensures t == Gold <==> score.Score? && 85 <= score.value < 95
    ensures t == Silver <==> score.Score? && 70 <= score.value < 85
    ensures t == Bronze <==> score.Score? && 50 <= score.value < 70
    ensures t == Developing <==> score.NaN? || score.value < 50
  {
    match score
    case NaN => Developing
    case Score(s) =>
      if s >= 95 then Platinum
      else if s >= 85 then Gold
      else if s >= 70 then Silver
      else if s >= 50 then Bronze
      else Developing
  }

  /** The label `finish` records for each tier. */
  function SecurityLevel(t: Tier): string {
    match t
    case Platinum => "Platinum - Cybersecurity Excellence"
    case Gold => "Gold - Advanced Security"
    case Silver => "Silver - Good Security Practices"
    case Bronze => "Bronze - Basic Security Foundation"
    case Developing => "Developing - Needs Attention"
  }

  /** The badge `finish` records for each tier. */
  function Badge(t: Tier): string {
    match t
    case Platinum => "💎"
    case Gold => "🥇"
    case Silver => "🥈"
    case Bronze => "🥉"
    case Developing => "🔧"
  }

  /** Different tiers carry different labels and different badges. */
  lemma TierLabelsDistinct(t: Tier, u: Tier)
    ensures t != u ==> SecurityLevel(t) != SecurityLevel(u)
    ensures t != u ==> Badge(t) != Badge(u)
  {
  }

  /** Tiers from lowest (0) to highest (4). */
  function Rank(t: Tier): nat {
    match t
    case Developing => 0
    case Bronze => 1
    case Silver => 2
    case Gold => 3
    case Platinum => 4
  }

  /** A higher score never earns a lower tier. */
  lemma TierMonotone(s: int, t: int)
    requires s <= t
    ensures Rank(TierOf(Score(s))) <= Rank(TierOf(Score(t)))
  {
  }

  /** Confetti fires for a score of at least 85. */
  function Confetti(score: Percent): (fires: bool)
    ensures fires <==> TierOf(score) == Platinum || TierOf(score) == Gold
  {
    score.Score? && score.value >= 85
  }

  /** The hue of the results page, `pctToHue(finalScore)`; `NaN` in, `NaN` out. */
  function HueOf(score: Percent): (hue: Number)
    ensures hue.Finite? <==> score.Score?
    ensures hue.Finite? ==> 0.0 <= hue.value <= 120.0
    ensures score.Score? ==> hue == Finite(PctToHue(score.value as real) as real)
  {
    match score
    case Score(v) => Finite(PctToHue(v as real) as real)
    case NaN => NotANumber
  }

  /** The record `finish` stores (the date stamp is left out). */
  datatype QuizResult = QuizResult(
    score: Percent,
    notes: seq<string>,
    hue: Number,
    securityLevel: string,
    badge: string,
    categoryScores: CategoryScores,
    maturityBonus: int)

  /**
   * What `finish` records from the local scoring and the endpoint's response
   * (`None` when the request failed): the AI grade's score, rounded and
   * clamped, its notes when present, and the local category lists and bonus.
   */
  function ResultOf(local: ScoreResult, response: Option<Server.Response>): (r: QuizResult)
    ensures r.score == FinalScore(GradeWithAI(response, NumberOf(local.percent), local.notes), local.percent)
    ensures r.notes == (if response.Some? then response.value.notes else local.notes)
    ensures r.securityLevel == SecurityLevel(TierOf(r.score)) && r.badge == Badge(TierOf(r.score))
    ensures r.hue == HueOf(r.score)
    ensures r.categoryScores == local.categoryScores && r.maturityBonus == local.maturityBonus
  {
    var ai := GradeWithAI(response, NumberOf(local.percent), local.notes);
    var finalScore := FinalScore(ai, local.percent);
    var tier := TierOf(finalScore);
    QuizResult(finalScore, ai.notes.GetOr(local.notes), HueOf(finalScore), SecurityLevel(tier), Badge(tier),
               local.categoryScores, local.maturityBonus)
  }

  /**
   * Once any question is answered the recorded score is a number in
   * [0, 100]: the endpoint's own score when it answered, the local
   * percentage otherwise.
   */
  lemma AnsweredResultScore(a: Answers, qs: seq<Question>, response: Option<Server.Response>)
    requires exists k :: 0 <= k < |qs| && qs[k].id in a
    requires UnitWeights(a)
    ensures FinalPercent(a, qs).Score?
    ensures ResultOf(ScoreOf(a, qs), response).score.Score?
    ensures 0 <= ResultOf(ScoreOf(a, qs), response).score.value <= 100
    ensures response.None? ==> ResultOf(ScoreOf(a, qs), response).score == FinalPercent(a, qs)
  {
    PercentNaNIff(a, qs);
    PercentInRange(a, qs);
  }

  // ---------------------------------------------------------------------
  // Results-page ladders.
  // ---------------------------------------------------------------------

  /** The risk level, implementation estimate and investment range cards of the executive summary. */
  datatype Summary = Summary(risk: string, implementation: string, investment: string)

  /** The executive summary: three cards that share the 85 and 70 thresholds. */
  function ExecutiveSummary(score: Percent): (s: Summary)
    ensures s.risk == "Low Risk" <==> score.Score? && score.value >= 85
    ensures s.risk == "Moderate Risk" <==> score.Score? && 70 <= score.value < 85
    ensures s.risk == "High Risk" <==> score.NaN? || score.value < 70
    ensures s.implementation == "30 days" <==> s.risk == "Low Risk"
    ensures s.implementation == "60 days" <==> s.risk == "Moderate Risk"
    ensures s.implementation == "90 days" <==> s.risk == "High Risk"
    ensures s.investment == "$500-2K" <==> s.risk == "Low Risk"
    ensures s.investment == "$2K-8K" <==> s.risk == "Moderate Risk"
    ensures s.investment == "$8K-20K" <==> s.risk == "High Risk"
  {
    if score.Score? && score.value >= 85 then Summary("Low Risk", "30 days", "$500-2K")
    else if score.Score? && score.value >= 70 then Summary("Moderate Risk", "60 days", "$2K-8K")
    else Summary("High Risk", "90 days", "$8K-20K")
  }

  function RankingLabel(score: Percent): (l: string)
    ensures l == "Top 10%" <==> score.Score? && score.value >= 85
    ensures l == "Above Average" <==> score.Score? && 67 <= score.value < 85
    ensures l == "Below Average" <==> score.NaN? || score.value < 67
  {
    if score.Score? && score.value >= 85 then "Top 10%"
    else if score.Score? && score.value >= 67 then "Above Average"
    else "Below Average"
  }

  /**
   * The results page is consistent with the tier: Low Risk (and with it a
   * 30-day plan and the lowest investment band), the top-10% ranking and the
   * confetti all go together with Gold or Platinum; Moderate Risk goes with Silver and
   * ranks above the industry average of 67; High Risk goes with Bronze or
   * Developing.
   */
  lemma ResultsPageConsistent(score: Percent)
    ensures ExecutiveSummary(score).risk == "Low Risk" <==> Rank(TierOf(score)) >= 3
    ensures ExecutiveSummary(score).risk == "Low Risk" <==> RankingLabel(score) == "Top 10%"
    ensures ExecutiveSummary(score).risk == "Low Risk" <==> Confetti(score)
    ensures ExecutiveSummary(score).risk == "Moderate Risk" <==> TierOf(score) == Silver
    ensures ExecutiveSummary(score).risk == "Moderate Risk" ==> RankingLabel(score) == "Above Average"
    ensures ExecutiveSummary(score).risk == "High Risk" <==> Rank(TierOf(score)) <= 1
    ensures RankingLabel(score) == "Below Average" ==> ExecutiveSummary(score).risk == "High Risk"
  {
  }

  /** `n.includes('🚨')` */
  predicate Critical(note: string) {
    '🚨' in note
  }

  /** `result.notes?.filter(n => n.includes('🚨')).length || 0` */
  function CriticalIssues(notes: seq<string>): (n: nat)
    ensures n <= |notes|
    decreases |notes|
  {
    if notes == [] then 0
    else CriticalIssues(notes[..|notes| - 1]) + (if Critical(notes[|notes| - 1]) then 1 else 0)
  }

  /** Dropping notes from the end never raises the count. */
  lemma {:induction false} CriticalIssuesPrefix(notes: seq<string>, m: nat)
    requires m <= |notes|
    ensures CriticalIssues(notes[..m]) <= CriticalIssues(notes)
    decreases |notes|
  {
    if m < |notes| {
      var init := notes[..|notes| - 1];
      assert init[..m] == notes[..m];
      CriticalIssuesPrefix(init, m);
    } else {
      assert notes[..m] == notes;
    }
  }

  /** When the first `m` notes are all critical, at least `m` are counted. */
  lemma {:induction false} CriticalIssuesOfCriticalPrefix(notes: seq<string>, m: nat)
    requires m <= |notes|
    requires forall k :: 0 <= k < m ==> Critical(notes[k])
    ensures CriticalIssues(notes) >= m
    decreases m
  {
    CriticalIssuesPrefix(notes, m);
    if m > 0 {
      var init := notes[..m];
      assert init[..m - 1] == notes[..m - 1];
      CriticalIssuesOfCriticalPrefix(notes[..m - 1], m - 1);
      assert CriticalIssues(init) == CriticalIssues(notes[..m - 1]) + 1;
    }
  }

  /**
   * On the local notes, the Critical Issues figure counts at least every
   * critical gap that made it into the first ten recommendations.
   */
  lemma CriticalIssuesCountGaps(a: Answers, qs: seq<Question>, cs: CategoryScores)
    ensures CriticalIssues(Recommendations(a, qs, cs)) >= Min(10, |Gaps(a, qs)|)
  {
    var r := Recommendations(a, qs, cs);
    var m := Min(10, |Gaps(a, qs)|);
    GapsLead(a, qs, cs);
    forall k | 0 <= k < m
      ensures Critical(r[k])
    {
      assert r[k] == GapMarker + ByPriority(Gaps(a, qs))[k].suggestion;
      assert r[k][0] == '🚨';
    }
    CriticalIssuesOfCriticalPrefix(r, m);
  }

  /** The category average shown on the results page: `Math.round(mean * 100)`, 0 for an empty list. */
  function CategoryPercent(scores: seq<real>): (p: int)
    ensures p == Round(Mean(scores) * 100.0)
  {
    if |scores| > 0 then Round(Sum(scores) / (|scores| as real) * 100.0) else 0
  }

  /** For weights in [0, 1] the shown average lies in [0, 100]. */
  lemma CategoryPercentInRange(scores: seq<real>)
    requires AllInUnit(scores)
    ensures 0 <= CategoryPercent(scores) <= 100
  {
    MeanInUnit(scores);
    RoundMonotone(0.0, Mean(scores) * 100.0);
    RoundMonotone(Mean(scores) * 100.0, 100.0);
    RoundOfInt(0);
    RoundOfInt(100);
  }

  // ---------------------------------------------------------------------
  // The session.
  // ---------------------------------------------------------------------

  /** The views the session moves between (the informational pages are left out). */
  datatype View = Landing | Quiz | Results

  /** `qs` equals `s` question by question except that each question's options may be reordered. */
  ghost predicate OptionsReordered(qs: seq<Question>, s: seq<Question>) {
    && |qs| == |s|
    && forall k :: 0 <= k < |qs| ==>
         qs[k] == s[k].(options := qs[k].options) && multiset(qs[k].options) == multiset(s[k].options)
  }

  /** `qs` is the catalog in some order, each question's options in some order. */
  ghost predicate Reshuffled(qs: seq<Question>, catalog: seq<Question>) {
    exists s :: multiset(s) == multiset(catalog) && OptionsReordered(qs, s)
  }

  /** Reshuffling keeps every question well formed. */
  lemma ReshuffledWellFormed(qs: seq<Question>, catalog: seq<Question>)
    requires forall k :: 0 <= k < |catalog| ==> WellFormed(catalog[k])
    requires Reshuffled(qs, catalog)
    ensures forall k :: 0 <= k < |qs| ==> WellFormed(qs[k])
  {
    var s :| multiset(s) == multiset(catalog) && OptionsReordered(qs, s);
    forall k | 0 <= k < |qs|
      ensures WellFormed(qs[k])
    {
      assert s[k] in multiset(catalog);
      var j :| 0 <= j < |catalog| && catalog[j] == s[k];
      WellFormedUnderReordering(s[k], qs[k].options);
    }
  }

  /** `.map(q => ({ ...q, options: shuffle(q.options) }))`, with one draw sequence per question. */
  method ShuffleOptions(s: seq<Question>, draws: seq<seq<real>>) returns (qs: seq<Question>)
    requires |draws| >= |s|
    requires forall k :: 0 <= k < |s| ==> |draws[k]| >= |s[k].options|
    requires forall k, i :: 0 <= k < |draws| && 0 <= i < |draws[k]| ==> IsDraw(draws[k][i])
    ensures OptionsReordered(qs, s)
  {
    qs := [];
    for k := 0 to |s|
      invariant OptionsReordered(qs, s[..k])
    {
      var options := Shuffle(s[k].options, draws[k]);
      qs := qs + [s[k].(options := options)];
    }
    assert s[..|s|] == s;
  }

  /**
   * `shuffle(catalog).map(q => ({ ...q, options: shuffle(q.options) }))`:
   * the questions in a random order, each with its options in a random order.
   */
  method ShuffleCatalog(catalog: seq<Question>, draws: seq<real>, optionDraws: seq<seq<real>>) returns (qs: seq<Question>)
    requires forall k :: 0 <= k < |catalog| ==> WellFormed(catalog[k])
    requires |draws| >= |catalog| && |optionDraws| >= |catalog|
    requires forall k :: 0 <= k < |draws| ==> IsDraw(draws[k])
    requires forall k :: 0 <= k < |optionDraws| ==> |optionDraws[k]| >= 3
    requires forall k, i :: 0 <= k < |optionDraws| && 0 <= i < |optionDraws[k]| ==> IsDraw(optionDraws[k][i])
    ensures |qs| == |catalog|
    ensures Reshuffled(qs, catalog)
  {
    var shuffled := Shuffle(catalog, draws);
    forall k | 0 <= k < |shuffled|
      ensures |shuffled[k].options| == 3
    {
      assert shuffled[k] in multiset(catalog);
      var j :| 0 <= j < |catalog| && catalog[j] == shuffled[k];
    }
    qs := ShuffleOptions(shuffled, optionDraws);
  }

  /** Recording an option whose weight lies in [0, 1] keeps every recorded weight in [0, 1]. */
  lemma RecordKeepsUnitWeights(a: Answers, id: string, option: AnswerOption)
    requires UnitWeights(a)
    requires 0.0 <= option.weight <= 1.0
    ensures UnitWeights(a[id := option])
  {
  }

  /**
   * `r` is graded for `a` on `qs`: the local percentage is a number, and
   * the recorded score is a number in [0, 100], the local percentage itself
   * when the request failed.
   */
  ghost predicate Graded(a: Answers, qs: seq<Question>, response: Option<Server.Response>, r: QuizResult) {
    && FinalPercent(a, qs).Score?
    && r.score.Score? && 0 <= r.score.value <= 100
    && (response.None? ==> r.score == FinalPercent(a, qs))
  }

  /** A completed quiz is graded. */
  lemma CompletedQuizGraded(a: Answers, qs: seq<Question>, response: Option<Server.Response>, r: QuizResult)
    requires r == ResultOf(ScoreOf(a, qs), response)
    ensures |qs| > 0 && AllAnswered(a, qs) && UnitWeights(a) ==> Graded(a, qs, response, r)
  {
    if |qs| > 0 && AllAnswered(a, qs) && UnitWeights(a) {
      assert qs[0].id in a;
      AnsweredResultScore(a, qs, response);
    }
  }

  /** Every question of `qs` has an answer. */
  ghost predicate AllAnswered(a: Answers, qs: seq<Question>) {
    forall k :: 0 <= k < |qs| ==> qs[k].id in a
  }

  /** Answering the last question after all those before it answers them all. */
  lemma LastAnswerCompletes(a: Answers, qs: seq<Question>, idx: nat)
    requires idx < |qs| && idx + 1 >= |qs|
    requires forall k :: 0 <= k < idx ==> qs[k].id in a
    requires qs[idx].id in a
    ensures AllAnswered(a, qs)
  {
  }

  /**
   * The body of `finish(finalAns)` up to `setResult`: local scoring, the
   * grade, the final score, its hue and its tier. For a completed quiz
   * the recorded score is a number in [0, 100].
   */
  method GradedResult(finalAns: Answers, qs: seq<Question>, response: Option<Server.Response>) returns (r: QuizResult)
    ensures r == ResultOf(ScoreOf(finalAns, qs), response)
    ensures |qs| > 0 && AllAnswered(finalAns, qs) && UnitWeights(finalAns) ==> Graded(finalAns, qs, response, r)
  {
    var local := LocalScoreAndNotes(finalAns, qs);
    var ai := GradeWithAI(response, NumberOf(local.percent), local.notes);
    var finalScore := FinalScore(ai, local.percent);
    var hue := HueOf(finalScore);
    var tier := TierOf(finalScore);
    var securityLevel := SecurityLevel(tier);
    var badge := Badge(tier);
    r := QuizResult(finalScore, ai.notes.GetOr(local.notes), hue, securityLevel, badge,
                    local.categoryScores, local.maturityBonus);
    CompletedQuizGraded(finalAns, qs, response, r);
  }

  class QuizSession {
    /** `BASE_QUESTIONS`, the catalog every assessment is drawn from. */
    const catalog: seq<Question>
    var view: View
    var qs: Option<seq<Question>>
    var idx: nat
    var answers: Answers
    var transitioning: bool
    var result: Option<QuizResult>

    /**
     * The quiz view has a current question, and every question before it
     * has been answered.
     */
    ghost predicate Valid()
      reads this
    {
      && |catalog| == 10
      && (forall k :: 0 <= k < |catalog| ==> WellFormed(catalog[k]))
      && UnitWeights(answers)
      && (qs.Some? ==> |qs.value| == |catalog| && forall k :: 0 <= k < |qs.value| ==> WellFormed(qs.value[k]))
      && (view == Quiz ==> qs.Some? && idx < |qs.value|)
      && (qs.Some? ==> forall k :: 0 <= k < idx && k < |qs.value| ==> qs.value[k].id in answers)
      && (view == Results ==> result.Some?)
    }

    /** The initial state of the component. */
    constructor ()
      ensures Valid()
      ensures catalog == BaseQuestions
      ensures view == Landing && qs.None? && idx == 0 && answers == map[]
      ensures !transitioning && result.None?
    {
      catalog := BaseQuestions;
      CatalogWellFormed();
      CatalogSize();
      view := Landing;
      qs := None;
      idx := 0;
      answers := map[];
      transitioning := false;
      result := None;
    }

    /** `qs?.length || BASE_QUESTIONS.length` */
    function Total(): nat
      reads this
    {
      if qs.Some? && |qs.value| > 0 then |qs.value| else |catalog|
    }

    /**
     * `start()`: shuffle the catalog, shuffle each question's options, clear
     * the answers and go to the first question. `draws` and `optionDraws`
     * stand for the successive `Math.random()` values.
     */
    method Start(draws: seq<real>, optionDraws: seq<seq<real>>)
      requires Valid()
      requires |draws| >= |catalog| && |optionDraws| >= |catalog|
      requires forall k :: 0 <= k < |draws| ==> IsDraw(draws[k])
      requires forall k :: 0 <= k < |optionDraws| ==> |optionDraws[k]| >= 3
      requires forall k, i :: 0 <= k < |optionDraws| && 0 <= i < |optionDraws[k]| ==> IsDraw(optionDraws[k][i])
      modifies this
      ensures Valid()
      ensures qs.Some? && Reshuffled(qs.value, catalog) && |qs.value| == |catalog|
      ensures answers == map[] && idx == 0 && view == Quiz
      ensures transitioning == old(transitioning) && result == old(result)
    {
      var randomized := ShuffleCatalog(catalog, draws, optionDraws);
      ReshuffledWellFormed(randomized, catalog);
      qs := Some(randomized);
      answers := map[];
      idx := 0;
      view := Quiz;
    }

    /**
     * The results view shows the result `finish` records for `finalAns`
     * on the current questions.
     */
    ghost predicate Finished(finalAns: Answers, response: Option<Server.Response>)
      reads this
    {
      && view == Results
      && qs.Some?
      && result == Some(ResultOf(ScoreOf(finalAns, qs.value), response))
    }

    /**
     * `choose(option)`, with its delayed advance taken as one step: ignored
     * while a transition is under way; otherwise it records the option for
     * the current question, then moves to the next question or, after the
     * last one, finishes with every question answered, so that the result
     * holds a score in [0, 100]. `option` is one of the current question's
     * options, the only ones the quiz view offers. `response` is what
     * the grading endpoint answers (`None` when the request fails); it is
     * used only when finishing.
     */
    method Choose(option: AnswerOption, response: Option<Server.Response>)
      requires Valid() && view == Quiz
      requires option in qs.value[idx].options
      modifies this
      ensures Valid()
      ensures old(transitioning) ==> unchanged(this)
      ensures !old(transitioning) ==>
        && qs == old(qs)
        && answers == old(answers)[old(qs.value[idx].id) := option]
        && !transitioning
      ensures !old(transitioning) && old(idx) + 1 < |qs.value| ==>
        idx == old(idx) + 1 && view == Quiz && result == old(result)
      ensures !old(transitioning) && old(idx) + 1 >= |qs.value| ==>
        && idx == old(idx)
        && AllAnswered(answers, qs.value)
        && Finished(answers, response)
        && Graded(answers, qs.value, response, result.value)
    {
      if transitioning {
        return;
      }
      transitioning := true;
      var current := qs.value[idx];
      WeightsInUnitInterval(current);
      RecordKeepsUnitWeights(answers, current.id, option);
      var nextAnswers := answers[current.id := option];
      answers := nextAnswers;
      if idx + 1 < Total() {
        idx := idx + 1;
        transitioning := false;
      } else {
        // The result lands after `finish` awaits the grade, once the transition is over.
        transitioning := false;
        LastAnswerCompletes(answers, qs.value, idx);
        Finish(nextAnswers, response);
      }
    }

    /**
     * `finish(finalAns)`: score the answers locally, take the endpoint's
     * grade, and record the result with its tier.
     */
    method Finish(finalAns: Answers, response: Option<Server.Response>)
      requires Valid() && qs.Some?
      modifies this
      ensures Valid()
      ensures qs == old(qs) && idx == old(idx) && answers == old(answers) && transitioning == old(transitioning)
      ensures Finished(finalAns, response)
      ensures AllAnswered(finalAns, qs.value) && UnitWeights(finalAns) ==> Graded(finalAns, qs.value, response, result.value)
    {
      var r := GradedResult(finalAns, qs.value, response);
      ShowResult(r);
    }

    /** `setResult(r)` followed by `setView("results")`. */
    method ShowResult(r: QuizResult)
      requires Valid()
      modifies this
      ensures Valid()
      ensures result == Some(r) && view == Results
      ensures qs == old(qs) && idx == old(idx) && answers == old(answers) && transitioning == old(transitioning)
    {
      result := Some(r);
      view := Results;
    }
  }
}
