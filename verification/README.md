# Mission Secure assessment core, modelled in Dafny

Mission Secure is a browser-based cybersecurity self-assessment quiz. The
project models its core:

- **Catalog.** Ten questions, each with three options weighted 0, 0.5 and 1 and
  tagged bad, iffy and best, plus the two notes shown for weak answers
  (`questions.dfy`).
- **Local scoring engine.** Answers are grouped into the foundation, advanced
  and culture categories with multipliers 1.2, 1.0 and 0.8. The category
  averages are re-weighted into a percentage, and eight or six best answers
  earn a maturity bonus (`categories.dfy`, `scoring.dfy`).
- **Recommendations.** The generator has a risk matrix, critical gaps and
  improvements sorted stably by urgency, pattern-based strategic notes, and a
  cut to ten (`suggestions.dfy`). The in-place sort is an insertion sort on an
  array. It is proved equal to a stable functional specification, which is
  proved sorted, a permutation and stable.
- **Helpers.**
  - Fisher-Yates `shuffle` as an in-place loop over an array copy. The
    `Math.random()` values are a sequence of draws in [0, 1).
  - The score-to-hue mapping.
  - The client-side fallback of the grading call (`helpers.dfy`).
- **Grading endpoint.** It sanitises the client's score and notes. A model
  reply may then overwrite each field independently: a numeric score is
  rounded and clamped, and an array of notes is cut to six (`server.dfy`).
- **Quiz session.** A class holding `view`, `qs`, `idx`, `answers`,
  `transitioning` and `result`:
  - `start` shuffles questions and options;
  - `choose` records an answer and either advances or finishes;
  - `finish` combines the local score with the grade, then assigns the tier,
    badge and hue;
  - the threshold ladders and category averages of the results page are also
    modelled (`app.dfy`).
- **Team page.** Initials of a member's name, and the emoji easter egg: a class
  with per-emoji click counters and the open modal, over the page's message
  table (`team.dfy`).

`js.dfy` holds the JavaScript semantics the model relies on:

- `Math.round` as `floor(x + 0.5)` over exact reals;
- `Math.max`/`Math.min` clamps;
- `slice(0, n)`;
- a number type with `NaN`.

JavaScript numbers are modelled as exact reals, and the local percentage as an
integer or `NaN`. A `NaN` appears when nothing was answered, because the
source then divides 0 by 0. The session proves this never happens once the
quiz has run to its end.

Answer weights come only from the catalog. Scoring lemmas that need them in
[0, 1] therefore take that as a precondition (`UnitWeights`). The session
keeps it as part of its invariant: `choose` records an option of the current
question, and `Questions.WeightsInUnitInterval` puts that option's weight in
[0, 1].

`shuffle` takes an array and returns a new one. The model takes and returns a
sequence, a value, so the argument is unchanged by construction.

## Model

| member | source | states |
|---|---|---|
| Js.Round | src/App.jsx:162 | `Math.round` lands within half a unit of its argument, rounding half-way values up |
| Js.RoundMonotone | src/utils/helpers.js:29 | rounding never reverses the order of two numbers |
| Js.RoundOfInt | src/utils/scoringEngine.js:55 | rounding an integer gives it back |
| Js.Clamp | server.mjs:17 | the clamp lies in [lo, hi]: it is the number itself inside, lo below and hi above |
| Js.ClampInt | src/App.jsx:162 | on integers the clamp agrees with `Clamp`, so the result lies in [lo, hi] and equals n inside it |
| Js.Min | src/utils/scoringEngine.js:60 | the minimum is at most both arguments and equals one of them |
| Js.Take | server.mjs:18 | `slice(0, n)` is a prefix of length min(n, length) |
| Js.TakeOfConcat | src/utils/scoringEngine.js:161 | the first n elements of a concatenation begin with the first min(n, length) elements of its first part |
| Questions.CatalogIds | src/data/questions.js:9-138 | the catalog's ids are q1 to q10 in order, pairwise distinct |
| Questions.CatalogSize | src/data/questions.js:9-138 | the catalog holds ten questions |
| Questions.StandardOptionsWellFormed | src/data/questions.js:14-20 | three options weighted 0, 0.5, 1 and tagged bad, iffy, best, with both notes present, make a well-formed question |
| Questions.CatalogWellFormed | src/data/questions.js:9-138 | every catalog question has three options, one per weight, tags matching weights, and both notes |
| Questions.OneOptionPerWeight | src/data/questions.js:15-17 | in a well-formed question no two options share a weight |
| Questions.WeightsInUnitInterval | src/data/questions.js:15-17 | every option weight lies in [0, 1] |
| Questions.WellFormedUnderReordering | src/data/questions.js:14-18 | reordering a question's options keeps it well formed |
| Categories.Multiplier | src/utils/scoringEngine.js:16-20 | the category multipliers lie in [0.8, 1.2] |
| Categories.ScaledIsProduct | src/utils/scoringEngine.js:49-51 | scaling by category is multiplying by that category's multiplier |
| Categories.CategoryOfIff | src/utils/scoringEngine.js:33-39 | an id is foundation exactly when it is q1, q3 or q8, advanced exactly when it is q6, q7 or q9, and culture otherwise |
| Categories.WeightOr0 | src/utils/scoringEngine.js:138-149 | `answers[id]?.weight \|\| 0` reads 0 for an unanswered id, and lies in [0, 1] when every answer weight does |
| Categories.Sum | src/utils/scoringEngine.js:48 | the reduce-sum of non-negative weights is non-negative |
| Categories.Mean | src/utils/scoringEngine.js:124-127 | an empty list averages 0; otherwise the average times the length is the sum |
| Categories.SumAppend | src/utils/scoringEngine.js:48 | the reduce-sum of a list grows by the appended element |
| Categories.SumBounds | src/utils/scoringEngine.js:48 | weights in [0, 1] sum to between 0 and the list's length |
| Categories.SumOfConstant | src/utils/scoringEngine.js:48 | a list of equal weights sums to weight times length |
| Categories.MeanOfOnes | src/utils/scoringEngine.js:124-127 | a list of ones averages 1, and the empty list averages 0 |
| Categories.MeanInUnit | src/utils/scoringEngine.js:124-127 | the average of weights in [0, 1] lies in [0, 1] |
| Categories.WeightsInUnit | src/utils/scoringEngine.js:29-40 | every weight in a category list lies in [0, 1] when every answer weight does |
| Categories.CategoriesPartitionAnswers | src/utils/scoringEngine.js:29-40 | each answered weight lands in exactly one category list, and unanswered questions in none (as multisets) |
| Categories.CategoriesCountAnswers | src/utils/scoringEngine.js:29-40 | the three lists together are as long as the number of answered questions |
| Categories.WeightsInMembership | src/utils/scoringEngine.js:33-39 | a category list is non-empty iff some answered question belongs to that category |
| Suggestions.Insert | src/utils/scoringEngine.js:120-121 | inserting one item lengthens the list by one |
| Suggestions.ByPriority | src/utils/scoringEngine.js:120-121 | the stable sort by priority keeps the length |
| Suggestions.WithPriorityAppend | src/utils/scoringEngine.js:120-121 | the items of one priority in an extended list are those of the original plus the new one when it has that priority |
| Suggestions.WithPriorityNone | src/utils/scoringEngine.js:120-121 | a list with no item of priority p has no items of priority p |
| Suggestions.InsertPermutation | src/utils/scoringEngine.js:120-121 | insertion adds exactly the new item |
| Suggestions.InsertLowerBound | src/utils/scoringEngine.js:120-121 | a lower bound on all priorities survives insertion |
| Suggestions.InsertSorted | src/utils/scoringEngine.js:120-121 | inserting into a sorted list keeps it sorted |
| Suggestions.InsertStable | src/utils/scoringEngine.js:120-121 | insertion keeps equal-priority items in order, the new one last among its equals |
| Suggestions.ByPrioritySorted | src/utils/scoringEngine.js:120-121 | the sort yields ascending priorities |
| Suggestions.ByPriorityPermutation | src/utils/scoringEngine.js:120-121 | the sort is a permutation of its input |
| Suggestions.ByPriorityStable | src/utils/scoringEngine.js:120-121 | the sort is stable: items of equal priority keep their relative order |
| Suggestions.InsertAt | src/utils/scoringEngine.js:120-121 | insertion into a sorted list lands after the items no larger and before the larger ones |
| Suggestions.ShiftedIsInsert | src/utils/scoringEngine.js:120-121 | the array after one shifting pass equals the functional insertion |
| Suggestions.InsertLast | src/utils/scoringEngine.js:120-121 | one in-place pass inserts `a[i]` into the sorted prefix and leaves the rest of the array alone |
| Suggestions.SortByPriority | src/utils/scoringEngine.js:120-121 | the in-place insertion sort leaves the array equal to the stable sort of its old contents |
| Suggestions.SortedByPriorityCopy | src/utils/scoringEngine.js:120-121 | sorting a fresh array of the items gives their stable sort |
| Suggestions.Marked | src/utils/scoringEngine.js:156-157 | each item becomes its marker followed by its suggestion, one for one |
| Suggestions.Recommendations | src/utils/scoringEngine.js:155-161 | the result is the first min(10, n) of gaps, improvements and strategic notes in that order, so at most ten |
| Suggestions.AllSuggestions | src/utils/scoringEngine.js:155-159 | the combined list is as long as the gaps, improvements and strategic notes together, and ends with the strategic notes |
| Suggestions.StrategicNotes | src/utils/scoringEngine.js:124-152 | at most five strategic notes |
| Suggestions.NotesDistinct | src/utils/scoringEngine.js:130-151 | the five strategic notes have five different lengths, so no two are equal |
| Suggestions.StrategicPriorityNoteIff | src/utils/scoringEngine.js:129-131 | the strategic-priority note is present iff the foundation average is below 0.7 |
| Suggestions.BalanceNoteIff | src/utils/scoringEngine.js:133-135 | the balance note is present iff the advanced average exceeds the foundation average by more than 0.3 |
| Suggestions.ComplianceNoteIff | src/utils/scoringEngine.js:138-141 | the compliance note is present iff q9 was not answered with weight 1 |
| Suggestions.AuthenticationNoteIff | src/utils/scoringEngine.js:144-147 | the authenticator note is present iff q1 was not answered with weight 1 |
| Suggestions.BackupNoteIff | src/utils/scoringEngine.js:149-152 | the backup note is present iff q3 was not answered with weight 1 |
| Suggestions.CollectItems | src/utils/scoringEngine.js:94-117 | the scan yields exactly the gap items (weight 0) and the improvement items (weight 0.5), in question order |
| Suggestions.StrategicSuggestions | src/utils/scoringEngine.js:124-152 | the pattern checks append exactly the strategic notes of the answers and category lists |
| Suggestions.GenerateDynamicSuggestions | src/utils/scoringEngine.js:75-162 | the generator returns the ten-item recommendation list |
| Suggestions.CriticalOnlyForQ1 | src/utils/scoringEngine.js:81-102 | a gap is CRITICAL iff its question is q1, the only id whose impact and likelihood are both HIGH |
| Suggestions.RiskOf | src/utils/scoringEngine.js:81-98 | every row of the risk matrix, the default included, has an urgency in 1..4 |
| Suggestions.RiskOfRows | src/utils/scoringEngine.js:81-98 | urgency 1 exactly for q1 and q3; an id outside q1..q9 gets MEDIUM impact, MEDIUM likelihood, urgency 3 and cost "Variable" |
| Suggestions.Classify | src/utils/scoringEngine.js:101-102 | CRITICAL iff impact and likelihood are both HIGH, HIGH iff exactly one of them is, MEDIUM iff neither is |
| Suggestions.GapItem | src/utils/scoringEngine.js:103-108 | a gap item names its question, its suggestion starts with the question's bad-answer note, its priority is the urgency and its level the classified risk |
| Suggestions.ImprovementItem | src/utils/scoringEngine.js:110-115 | an improvement item names its question, its suggestion starts with the iffy-answer note, its priority is the urgency plus 2 and its level MEDIUM |
| Suggestions.Gaps | src/utils/scoringEngine.js:94-108 | at most one gap per question, each with a priority in 1..4 |
| Suggestions.Improvements | src/utils/scoringEngine.js:94-117 | at most one improvement per question, each at MEDIUM risk with a priority in 3..6 |
| Suggestions.PriorityRanges | src/utils/scoringEngine.js:98-115 | gap priorities lie in 1..4 and an improvement ranks two behind the same question's gap at MEDIUM risk |
| Suggestions.GapsExactly | src/utils/scoringEngine.js:100-108 | a question yields a gap item iff it was answered with weight 0 |
| Suggestions.ImprovementsExactly | src/utils/scoringEngine.js:109-115 | a question yields an improvement item iff it was answered with weight 0.5 |
| Suggestions.AllBadAllGaps | src/utils/scoringEngine.js:94-117 | when every answer is the worst, every question yields a gap and none an improvement |
| Suggestions.GapsLead | src/utils/scoringEngine.js:155-161 | the recommendations open with the marked critical gaps, most urgent first |
| Suggestions.TenGapsFill | src/utils/scoringEngine.js:155-161 | with ten or more gaps all ten recommendations are marked gaps |
| Suggestions.NoStrategicNotesIff | src/utils/scoringEngine.js:124-152 | no strategic note iff foundation average ≥ 0.7, advanced not 0.3 above it, and q9, q1, q3 answered best |
| Suggestions.AllBestMeans | src/utils/scoringEngine.js:124-127 | with only best answers the foundation average is 1 and the advanced average at most 1 |
| Suggestions.AllBestNoRecommendations | src/utils/scoringEngine.js:75-162 | a perfect assessment that answers q1, q3 and q9 gets no recommendations |
| Suggestions.NoWeakAnswers | src/utils/scoringEngine.js:94-117 | with only best answers there are no gaps and no improvements |
| Suggestions.AllOnes | src/utils/scoringEngine.js:29-40 | with only best answers every category list holds only ones |
| Scoring.PerfectAnswers | src/utils/scoringEngine.js:58 | the count of best answers is at most the number of questions |
| Scoring.MaturityBonus | src/utils/scoringEngine.js:59 | the bonus is 0, 3 or 5: 5 iff eight or more best answers, 0 iff fewer than six |
| Scoring.BasePercent | src/utils/scoringEngine.js:55 | the rounded percentage is NaN (0 / 0) exactly when the weight mass is zero |
| Scoring.BasePercentInRange | src/utils/scoringEngine.js:55 | points within the weight mass give a rounded percentage in [0, 100] |
| Scoring.WithBonus | src/utils/scoringEngine.js:60 | NaN stays NaN; otherwise the result is percent plus bonus when that is at most 100, and 100 above |
| Scoring.FinalPercent | src/utils/scoringEngine.js:55-60 | the local percentage is NaN exactly when the weight mass is zero, and otherwise at most 100 |
| Scoring.ScoreOf | src/utils/scoringEngine.js:14-66 | the percentage is at most 100, there are at most ten notes, and the bonus is 0, 3 or 5 |
| Scoring.GroupedTotals | src/utils/scoringEngine.js:43-53 | after the three categories the totals are each category's sum and count, scaled |
| Scoring.Categorize | src/utils/scoringEngine.js:22-40 | the forEach pushes produce the category lists of the answers |
| Scoring.WeightedTotals | src/utils/scoringEngine.js:43-53 | the accumulation loop yields the grouped score and weight totals |
| Scoring.AddCategory | src/utils/scoringEngine.js:47-52 | one category adds its scaled sum and scaled count, or nothing when empty |
| Scoring.Reweight | src/utils/scoringEngine.js:48-51 | for any total and positive count, the average times the multiplier times the count is the scaled total, and the multiplier times the count is the scaled count |
| Scoring.Percentage | src/utils/scoringEngine.js:43-60 | the engine's percentage equals the question-by-question reference percentage, and its bonus the bonus of the best-answer count |
| Scoring.LocalScoreAndNotes | src/utils/scoringEngine.js:14-66 | `localScoreAndNotes` returns the reference score, notes, category lists and bonus |
| Scoring.Regroup | src/utils/scoringEngine.js:43-53 | grouping by category changes neither total: they equal the per-question tallies |
| Scoring.RegroupScore | src/utils/scoringEngine.js:29-53 | the per-question points equal the scaled category sums |
| Scoring.SumWeightsStep | src/utils/scoringEngine.js:29-40 | one more question adds its weight to its own category's sum and nothing to the others |
| Scoring.RegroupWeight | src/utils/scoringEngine.js:29-53 | the per-question weight mass equals the scaled category counts |
| Scoring.TallyBounds | src/utils/scoringEngine.js:50-51 | with weights in [0, 1] the points lie between 0 and the weight mass |
| Scoring.TallyWeightBound | src/utils/scoringEngine.js:49-51 | each question adds between 0 and 1.2 to the weight mass |
| Scoring.NothingAnsweredIff | src/utils/scoringEngine.js:51 | the weight mass is zero iff no question was answered |
| Scoring.PercentNaNIff | src/utils/scoringEngine.js:55 | the percentage is NaN iff no question was answered |
| Scoring.PercentInRange | src/utils/scoringEngine.js:55-60 | with weights in [0, 1] a numeric percentage lies in [0, 100] |
| Scoring.BonusEffect | src/utils/scoringEngine.js:60 | the bonus only raises the score, by at most 5, and never above 100 |
| Scoring.MaturityBonusMonotone | src/utils/scoringEngine.js:59 | more best answers never lower the bonus |
| Scoring.AllBestTally | src/utils/scoringEngine.js:50-51 | with only best answers the points equal the weight mass |
| Scoring.AllBestScoresHundred | src/utils/scoringEngine.js:55-60 | with only best answers and at least one answered, the percentage is 100 |
| Scoring.AllWorstTally | src/utils/scoringEngine.js:50-58 | with only worst answers the points are 0 and no answer is best |
| Scoring.AllWorstScoresZero | src/utils/scoringEngine.js:55-60 | with only worst answers and at least one answered, the percentage is 0 and there is no bonus |
| Scoring.TallyAppend | src/utils/scoringEngine.js:29-53 | the tally of a concatenation is the sum of the tallies |
| Scoring.PerfectAppend | src/utils/scoringEngine.js:58 | the best-answer count of a concatenation is the sum of the counts |
| Scoring.TallyRemove | src/utils/scoringEngine.js:29-53 | removing one question subtracts exactly its share |
| Scoring.PerfectRemove | src/utils/scoringEngine.js:58 | removing one question subtracts exactly its best-answer contribution |
| Scoring.TallyPermutation | src/utils/scoringEngine.js:29-53 | reordering the questions leaves the tally unchanged |
| Scoring.PerfectPermutation | src/utils/scoringEngine.js:58 | reordering the questions leaves the best-answer count unchanged |
| Scoring.ScoreIgnoresOrder | src/utils/scoringEngine.js:14-60 | the percentage and the bonus do not depend on the order the questions were asked in |
| Helpers.RandomIndex | src/utils/helpers.js:18 | for a draw in [0, 1), `floor(random · (i + 1))` lies in [0, i], so both swapped positions are in bounds |
| Helpers.DrawScaled | src/utils/helpers.js:18 | a draw in [0, 1) times a positive n lies in [0, n) |
| Helpers.SwapKeepsMultiset | src/utils/helpers.js:19 | exchanging two elements keeps the length and the multiset |
| Helpers.Shuffle | src/utils/helpers.js:15-22 | the shuffle returns a permutation of its input (same length and multiset), element-for-element equal for length 0 or 1 |
| Helpers.PctToHue | src/utils/helpers.js:29 | the hue lies in [0, 120]: 0 for p ≤ 0 and 120 for p ≥ 100 |
| Helpers.PctToHueMonotone | src/utils/helpers.js:29 | a higher percentage never gives a redder hue |
| Helpers.GradeWithAI | src/utils/helpers.js:38-49 | both fields are always present: the endpoint's response, or the local score and notes when the request fails |
| Server.SanitisedScore | server.mjs:16-17 | the client score is clamped to [0, 100]; missing or NaN becomes 0 |
| Server.SanitisedNotes | server.mjs:16-18 | at most 8 notes: the first min(8, n) of an array, [] otherwise |
| Server.ModelScore | server.mjs:53 | the model's score rounded and clamped is an integer in [0, 100]: within half a unit of an in-range score, 0 for a score at or below 0, 100 for a score at or above 100 |
| Server.Grade | server.mjs:15-63 | score in [0, 100] and at most 8 notes; without a key or a reply, the sanitised client values; each field taken from the reply exactly when well typed, independently of the other |
| App.FinalScore | src/App.jsx:162 | the final score lies in [0, 100]; it equals the local percent when the grade has no score; NaN only from a NaN input |
| App.NumberOf | src/App.jsx:161 | the percentage sent with the grading request is a finite number exactly when it is numeric, with the same value |
| App.TierOf | src/App.jsx:166-183 | exactly one tier: ≥ 95 Platinum, 85–94 Gold, 70–84 Silver, 50–69 Bronze, otherwise (NaN included) Developing |
| App.TierMonotone | src/App.jsx:166-183 | a higher score never earns a lower tier |
| App.TierLabelsDistinct | src/App.jsx:168-183 | different tiers record different security levels and different badges |
| App.Confetti | src/App.jsx:185 | confetti fires iff the tier is Gold or Platinum |
| App.HueOf | src/App.jsx:163 | the hue is a number exactly when the score is, and then it is `pctToHue` of the final score, in [0, 120] |
| App.ResultOf | src/App.jsx:160-196 | the recorded score is the final score of the grade; the notes are the response's when it arrived and the local ones otherwise; the level and badge match the tier; the hue matches the score; the category lists and bonus are the local ones |
| App.AnsweredResultScore | src/App.jsx:159-196 | once any question is answered the recorded score is a number in [0, 100], the local percentage when the request failed |
| App.CompletedQuizGraded | src/App.jsx:159-196 | once every question is answered with weights in [0, 1], the local percentage is a number and the recorded score is a number in [0, 100], the local percentage when the request failed |
| App.GradedResult | src/App.jsx:159-196 | the steps of `finish` compute exactly the result of the local scoring and the grade, graded as above for a completed quiz |
| App.RecordKeepsUnitWeights | src/App.jsx:104-105 | recording an option whose weight lies in [0, 1] keeps every recorded weight in [0, 1] |
| App.ResultsPageConsistent | src/App.jsx:507-611 | Low Risk, 30 days, the lowest investment band, Top 10% and confetti all coincide with Gold or above; Moderate Risk with Silver; High Risk with Bronze or below |
| App.ExecutiveSummary | src/App.jsx:503-529 | the risk card reads Low Risk iff the score is at least 85, Moderate Risk iff it is 70–84, High Risk otherwise (NaN included); the implementation card (30/60/90 days) and the investment card ($500-2K/$2K-8K/$8K-20K) move in step with it |
| App.RankingLabel | src/App.jsx:611 | Top 10% iff the score is at least 85, Above Average iff it is 67–84, Below Average otherwise |
| App.CriticalIssues | src/App.jsx:514 | the critical-issue count is at most the number of notes |
| App.CriticalIssuesPrefix | src/App.jsx:514 | dropping notes from the end never raises the count |
| App.CriticalIssuesOfCriticalPrefix | src/App.jsx:514 | when the first m notes are critical the count is at least m |
| App.CriticalIssuesCountGaps | src/App.jsx:514 | on the local notes the count covers every critical gap among the first ten recommendations |
| App.CategoryPercentInRange | src/App.jsx:547-548 | for weights in [0, 1] the displayed category average lies in [0, 100] |
| App.CategoryPercent | src/App.jsx:547-548 | the displayed category average is round(100 · mean), with the empty list shown as 0 |
| App.ReshuffledWellFormed | src/App.jsx:92 | reshuffling questions and options keeps every question well formed |
| App.ShuffleOptions | src/App.jsx:92 | each question is kept with its options permuted |
| App.ShuffleCatalog | src/App.jsx:92 | the questions are a permutation of the catalog, each with its options permuted |
| App.LastAnswerCompletes | src/App.jsx:126-131 | answering the last question after all earlier ones answers every question |
| App.QuizSession.constructor | src/App.jsx:24-34 | the session opens on the landing view with no questions, no answers, no result and no transition |
| App.QuizSession.Start | src/App.jsx:91-97 | questions and options are reshuffled from the catalog; answers are cleared, idx is 0 and the view is the quiz |
| App.QuizSession.Choose | src/App.jsx:99-134 | ignored while transitioning; otherwise only the current question's answer is set (to one of its options), then idx advances or, after the last question, the result for the complete answers is recorded, with a score in [0, 100] that is the local percentage when the request failed; answer weights stay in [0, 1] and idx < total is kept |
| App.QuizSession.Finish | src/App.jsx:159-201 | records the result of local scoring and grading for the given answers and shows the results view; for complete answers with weights in [0, 1] the score is a number in [0, 100] |
| App.QuizSession.ShowResult | src/App.jsx:187-197 | `setResult` then `setView`: the result and the results view are set, nothing else changes |
| Team.Split | src/TeamPage.jsx:109 | splitting on whitespace runs and dropping empties gives non-empty words without whitespace |
| Team.Words | src/TeamPage.jsx:109 | the words of a name are non-empty and contain no whitespace |
| Team.Initials | src/TeamPage.jsx:109 | at most two characters: the upper-cased first character of each of the first two words, in order |
| Team.Upper | src/TeamPage.jsx:109 | upper-casing leaves no lower-case ASCII letter: a lower-case letter becomes its capital, anything else is unchanged |
| Team.RemoveSpaces | src/TeamPage.jsx:109 | the name without its whitespace has no whitespace |
| Team.SplitKeepsText | src/TeamPage.jsx:109 | splitting loses only whitespace: the words joined back are the text without it |
| Team.ConcatAppend | src/TeamPage.jsx:109 | joining distributes over concatenation |
| Team.WordsKeepText | src/TeamPage.jsx:109 | a name's words joined are the name without whitespace |
| Team.SplitOfSpaces | src/TeamPage.jsx:109 | all-whitespace text has no words |
| Team.BlankNameNoInitials | src/TeamPage.jsx:109 | an empty or all-whitespace name has empty initials |
| Team.SplitStartsWithWord | src/TeamPage.jsx:109 | a word being read becomes the start of the first word |
| Team.SplitFirstWord | src/TeamPage.jsx:109 | after leading whitespace the first word starts at the first other character |
| Team.FirstInitial | src/TeamPage.jsx:109 | the first initial is the name's first non-whitespace character, upper-cased |
| Team.NatToString | src/TeamPage.jsx:211 | a count renders as a non-empty string of decimal digits |
| Team.NatToStringRoundTrip | src/TeamPage.jsx:211 | reading the rendered count back gives the count |
| Team.MessageIndex | src/TeamPage.jsx:193 | `(count - 1) % length` is an index into the messages exactly when there are any |
| Team.UntilNextMessage | src/TeamPage.jsx:211 | the "more for next message" figure is 1, 2 or 3, and 3 exactly after a multiple of three clicks |
| Team.AchievementModal | src/TeamPage.jsx:196-205 | the achievement modal is flagged as such, names the member and says "<member> Super Fan!" |
| Team.MessageModal | src/TeamPage.jsx:206-215 | the click modal is not an achievement, carries the emoji, member and colour, and shows a message exactly when the table has any, then one of the table's messages |
| Team.MessagesCycle | src/TeamPage.jsx:193-194 | length more clicks show the same message again |
| Team.NextClickNextMessage | src/TeamPage.jsx:193-194 | each click shows the next message, wrapping after the last |
| Team.EasterEgg.constructor | src/TeamPage.jsx:106-185 | counters start empty, no modal is open, and the table is the page's emoji message table |
| Team.EasterEgg.HandleEmojiClick | src/TeamPage.jsx:187-219 | only the clicked emoji's counter rises, by one; without a table entry the modal is unchanged; the fifth click shows the achievement; otherwise the modal shows `messages[(count - 1) mod length]` |

## Left out

- Question prompts and option labels are not modelled: nothing in the core depends on them. The catalog keeps each question's id, its options' weights and tags, and both notes word for word. The recommendation texts and the five strategic notes are kept in full.
- IEEE floating point: numbers are exact reals, so rounding artefacts at the 0.7 and +0.3 thresholds and in `Math.round` are not modelled. Infinities are left out: a client or model score of `Infinity` is outside the model.
- Helpers.Shuffle: states that the result is a permutation, not which permutation the draws select. The uniformity of the shuffle is not modelled.
- App.ShuffleCatalog: states that the result is a reshuffle of the catalog, not which one. The same applies to App.QuizSession.Start.
- Timers and async ordering. The 150 ms delay of `choose` is not modelled: it is taken as one atomic step, and the result lands once the transition has ended. The same goes for the 2 s email prompt, the midnight-mode interval and the fire-and-forget response logging.
- Network I/O is left out: the `fetch` to the grading endpoint, the OpenAI call, `logResponse`, the news prefetch and the emailjs send. Two things stand in for it: the endpoint's response is a parameter of `choose`/`finish` (`None` when the request fails), and the model's parsed reply is a parameter of `Server.Grade`. The prompts sent to the model are not modelled.
- JSON serialisation of a `NaN` local score into `null`: the session never grades an empty answer map, so this cannot arise there.
- The `dateISO` stamp of the result, confetti rendering, theme and `localStorage`, session ids, the informational views (team, beginner guide, news, contact) and the other page layout.
- Team.EasterEgg.HandleEmojiClick: the counter is read from the rendered state while the update goes through the functional setter. Two clicks before a re-render would therefore compute the same count. The model handles each click atomically on the current count.
- Unicode: `toUpperCase` is modelled for ASCII letters only, and `s[0]` takes the first code point rather than the first UTF-16 unit. `\s` is modelled as the JavaScript whitespace set listed in `Team.IsSpace`.
- The message table's entries all have three messages, but no lemma states this. Counting the map literal is too costly for the verifier. The click handler is proved for any table, with `MessageIndex` covering the empty case.
