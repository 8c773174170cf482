/**
 * The recommendation generator: a risk-annotated item per weak answer,
 * critical gaps and improvements each ordered by priority (JavaScript's
 * `Array.prototype.sort` is stable, so equal priorities keep question
 * order), then the pattern-based strategic notes, cut to ten entries.
 */
module Suggestions {
  import opened Js
  import opened Questions
  import opened Categories

  datatype Level = High | Medium | Low

  /** One row of the risk matrix. */
  datatype Risk = Risk(impact: Level, likelihood: Level, urgency: int, cost: string)

  /** The risk matrix; ids it does not list get MEDIUM / MEDIUM / urgency 3 / "Variable". */
  function RiskOf(id: string): (r: Risk)
    ensures 1 <= r.urgency <= 4
  {
    if id == "q1" then Risk(High, High, 1, "$100-500")
    else if id == "q2" then Risk(Medium, High, 2, "$500-2000")
    else if id == "q3" then Risk(High, Medium, 1, "$200-1000")
    else if id == "q4" then Risk(Medium, Medium, 3, "$1000-5000")
    else if id == "q5" then Risk(High, Low, 2, "$2000-10000")
    else if id == "q6" then Risk(Medium, High, 2, "$500-3000")
    else if id == "q7" then Risk(Medium, Low, 3, "$1000-5000")
    else if id == "q8" then Risk(Medium, Medium, 2, "$2000-8000")
    else if id == "q9" then Risk(Low, Low, 4, "$5000-15000")
    else Risk(Medium, Medium, 3, "Variable")
  }

  /** Only q1 and q3 are most urgent, and an id outside q1 to q9 gets the default row. */
  lemma RiskOfRows(id: string)
    ensures RiskOf(id).urgency == 1 <==> id in {"q1", "q3"}
    ensures id !in {"q1", "q2", "q3", "q4", "q5", "q6", "q7", "q8", "q9"} ==> RiskOf(id) == Risk(Medium, Medium, 3, "Variable")
  {
  }

  datatype RiskLevel = Critical | HighRisk | MediumRisk

  function RiskLevelName(l: RiskLevel): string {
    match l
    case Critical => "CRITICAL"
    case HighRisk => "HIGH"
    case MediumRisk => "MEDIUM"
  }

  /** The risk level of a gap: CRITICAL iff impact and likelihood are both HIGH, HIGH if either is. */
  function Classify(r: Risk): (l: RiskLevel)
    ensures l == Critical <==> r.impact == High && r.likelihood == High
    ensures l == HighRisk <==> (r.impact == High) != (r.likelihood == High)
    ensures l == MediumRisk <==> r.impact != High && r.likelihood != High
  {
    if r.impact == High && r.likelihood == High then Critical
    else if r.impact == High || r.likelihood == High then HighRisk
    else MediumRisk
  }

  /** A recommendation before it is marked and ordered. */
  datatype Item = Item(area: string, suggestion: string, priority: int, riskLevel: RiskLevel)

  /** The item for a question answered with weight 0: a 30-day target at the question's urgency. */
  function GapItem(q: Question): (it: Item)
    ensures it.area == q.id && q.noteBad <= it.suggestion
    ensures it.priority == RiskOf(q.id).urgency && it.riskLevel == Classify(RiskOf(q.id))
  {
    var risk := RiskOf(q.id);
    var level := Classify(risk);
    Item(q.id, q.noteBad + " [" + RiskLevelName(level) + " RISK • " + risk.cost + " • 30-day target]",
         risk.urgency, level)
  }

  /** The item for a question answered with weight 0.5: a 60-day target, two ranks less urgent. */
  function ImprovementItem(q: Question): (it: Item)
    ensures it.area == q.id && q.noteIffy <= it.suggestion
    ensures it.priority == RiskOf(q.id).urgency + 2 && it.riskLevel == MediumRisk
  {
    var risk := RiskOf(q.id);
    Item(q.id, q.noteIffy + " [MEDIUM RISK • " + risk.cost + " • 60-day target]",
         risk.urgency + 2, MediumRisk)
  }

  /** Critical-gap items, one per question answered with weight 0, in question order. */
  function Gaps(a: Answers, qs: seq<Question>): (r: seq<Item>)
    ensures |r| <= |qs|
    ensures forall k :: 0 <= k < |r| ==> 1 <= r[k].priority <= 4
    decreases |qs|
  {
    if qs == [] then []
    else
      var q := qs[|qs| - 1];
      Gaps(a, qs[..|qs| - 1]) + (if q.id in a && a[q.id].weight == 0.0 then [GapItem(q)] else [])
  }

  /** Improvement items, one per question answered with weight 0.5, in question order. */
  function Improvements(a: Answers, qs: seq<Question>): (r: seq<Item>)
    ensures |r| <= |qs|
    ensures forall k :: 0 <= k < |r| ==> 3 <= r[k].priority <= 6 && r[k].riskLevel == MediumRisk
    decreases |qs|
  {
    if qs == [] then []
    else
      var q := qs[|qs| - 1];
      Improvements(a, qs[..|qs| - 1]) + (if q.id in a && a[q.id].weight == 0.5 then [ImprovementItem(q)] else [])
  }

  // ---------------------------------------------------------------------
  // Ordering by priority. The specification is insertion into a sorted
  // list in front of the first strictly larger priority, which keeps equal
  // priorities in their original order, as the engine's stable sort does.
  // ---------------------------------------------------------------------

  predicate SortedByPriority(s: seq<Item>) {
    forall i, j :: 0 <= i < j < |s| ==> s[i].priority <= s[j].priority
  }

  function Insert(s: seq<Item>, x: Item): (r: seq<Item>)
    ensures |r| == |s| + 1
    decreases |s|
  {
    if s == [] then [x]
    else if x.priority < s[0].priority then [x] + s
    else [s[0]] + Insert(s[1..], x)
  }

  function ByPriority(s: seq<Item>): (r: seq<Item>)
    ensures |r| == |s|
    decreases |s|
  {
    if s == [] then [] else Insert(ByPriority(s[..|s| - 1]), s[|s| - 1])
  }

  /** The items of `s` with priority `p`, in their order in `s`. */
  function WithPriority(s: seq<Item>, p: int): seq<Item>
    decreases |s|
  {
    if s == [] then []
    else (if s[0].priority == p then [s[0]] else []) + WithPriority(s[1..], p)
  }

  lemma {:induction false} WithPriorityAppend(s: seq<Item>, x: Item, p: int)
    ensures WithPriority(s + [x], p) == WithPriority(s, p) + (if x.priority == p then [x] else [])
    decreases |s|
  {
    if s == [] {
      assert [x][1..] == [];
    } else {
      var head := if s[0].priority == p then [s[0]] else [];
      var tail := if x.priority == p then [x] else [];
      assert (s + [x])[0] == s[0];
      assert (s + [x])[1..] == s[1..] + [x];
      WithPriorityAppend(s[1..], x, p);
      assert WithPriority(s + [x], p) == head + (WithPriority(s[1..], p) + tail);
      assert head + (WithPriority(s[1..], p) + tail) == (head + WithPriority(s[1..], p)) + tail;
    }
  }

  lemma {:induction false} WithPriorityNone(s: seq<Item>, p: int)
    requires forall k :: 0 <= k < |s| ==> s[k].priority != p
    ensures WithPriority(s, p) == []
    decreases |s|
  {
    if s != [] {
      WithPriorityNone(s[1..], p);
    }
  }

  /** Inserting adds exactly the new item. */
  lemma {:induction false} InsertPermutation(s: seq<Item>, x: Item)
    ensures multiset(Insert(s, x)) == multiset(s) + multiset{x}
    decreases |s|
  {
    if s != [] && x.priority >= s[0].priority {
      InsertPermutation(s[1..], x);
      assert s == [s[0]] + s[1..];
    }
  }

  /** A bound below every item and the new one bounds the result of inserting. */
  lemma {:induction false} InsertLowerBound(s: seq<Item>, x: Item, b: int)
    requires forall k :: 0 <= k < |s| ==> b <= s[k].priority
    requires b <= x.priority
    ensures forall k :: 0 <= k < |Insert(s, x)| ==> b <= Insert(s, x)[k].priority
    decreases |s|
  {
    if s != [] && x.priority >= s[0].priority {
      InsertLowerBound(s[1..], x, b);
    }
  }

  /** Inserting into a sorted list keeps it sorted. */
  lemma {:induction false} InsertSorted(s: seq<Item>, x: Item)
    requires SortedByPriority(s)
    ensures SortedByPriority(Insert(s, x))
    decreases |s|
  {
    if s != [] && x.priority >= s[0].priority {
      InsertSorted(s[1..], x);
      InsertLowerBound(s[1..], x, s[0].priority);
    }
  }

  /** Inserting keeps every priority's items in order, the new one last among its equals. */
  lemma {:induction false} InsertStable(s: seq<Item>, x: Item, p: int)
    requires SortedByPriority(s)
    ensures WithPriority(Insert(s, x), p) == WithPriority(s, p) + (if x.priority == p then [x] else [])
    decreases |s|
  {
    var tail := if x.priority == p then [x] else [];
    if s == [] {
      assert [x][1..] == [];
    } else if x.priority < s[0].priority {
      assert ([x] + s)[0] == x;
      assert ([x] + s)[1..] == s;
      assert WithPriority([x] + s, p) == tail + WithPriority(s, p);
      if x.priority == p {
        WithPriorityNone(s, p);
      }
    } else {
      var head := if s[0].priority == p then [s[0]] else [];
      var r := Insert(s[1..], x);
      assert ([s[0]] + r)[0] == s[0];
      assert ([s[0]] + r)[1..] == r;
      InsertStable(s[1..], x, p);
      assert WithPriority([s[0]] + r, p) == head + (WithPriority(s[1..], p) + tail);
      assert head + (WithPriority(s[1..], p) + tail) == (head + WithPriority(s[1..], p)) + tail;
    }
  }

  /** The ordering yields items sorted by ascending priority. */
  lemma {:induction false} ByPrioritySorted(s: seq<Item>)
    ensures SortedByPriority(ByPriority(s))
    decreases |s|
  {
    if s != [] {
      ByPrioritySorted(s[..|s| - 1]);
      InsertSorted(ByPriority(s[..|s| - 1]), s[|s| - 1]);
    }
  }

  /** The ordering neither drops nor adds items. */
  lemma {:induction false} ByPriorityPermutation(s: seq<Item>)
    ensures multiset(ByPriority(s)) == multiset(s)
    decreases |s|
  {
    if s != [] {
      var init := s[..|s| - 1];
      ByPriorityPermutation(init);
      InsertPermutation(ByPriority(init), s[|s| - 1]);
      assert s == init + [s[|s| - 1]];
      assert multiset(s) == multiset(init) + multiset{s[|s| - 1]};
    }
  }

  /** The ordering is stable: items of equal priority keep their relative order. */
  lemma {:induction false} ByPriorityStable(s: seq<Item>, p: int)
    ensures WithPriority(ByPriority(s), p) == WithPriority(s, p)
    decreases |s|
  {
    if s != [] {
      var init := s[..|s| - 1];
      ByPriorityStable(init, p);
      ByPrioritySorted(init);
      InsertStable(ByPriority(init), s[|s| - 1], p);
      assert s == init + [s[|s| - 1]];
      WithPriorityAppend(init, s[|s| - 1], p);
    }
  }

  /** Where insertion lands in a sorted list: after the items no larger, before the larger ones. */
  lemma {:induction false} InsertAt(s: seq<Item>, x: Item, j: nat)
    requires SortedByPriority(s)
    requires j <= |s|
    requires j > 0 ==> s[j - 1].priority <= x.priority
    requires forall k :: j <= k < |s| ==> x.priority < s[k].priority
    ensures Insert(s, x) == s[..j] + [x] + s[j..]
    decreases j
  {
    if j > 0 {
      assert s[0].priority <= s[j - 1].priority;
      InsertAt(s[1..], x, j - 1);
      assert s[1..][..j - 1] == s[1..j];
      assert s[1..][j - 1..] == s[j..];
    } else if s != [] {
      assert s[..0] == [];
    }
  }

  /**
   * A list that agrees with `s` before position `j`, holds `x` at `j` and
   * `s` shifted up by one after it is `Insert(s, x)` when `j` is where
   * insertion lands.
   */
  lemma ShiftedIsInsert(s: seq<Item>, x: Item, j: nat, t: seq<Item>)
    requires SortedByPriority(s)
    requires j <= |s|
    requires j > 0 ==> s[j - 1].priority <= x.priority
    requires forall k :: j <= k < |s| ==> x.priority < s[k].priority
    requires |t| == |s| + 1
    requires forall k :: 0 <= k < j ==> t[k] == s[k]
    requires t[j] == x
    requires forall k :: j < k < |t| ==> t[k] == s[k - 1]
    ensures t == Insert(s, x)
  {
    InsertAt(s, x, j);
    assert t == s[..j] + [x] + s[j..];
  }

  /** One pass of insertion sort: moves `a[i]` into the sorted prefix `a[..i]`. */
  method InsertLast(a: array<Item>, i: nat)
    requires i < a.Length
    requires SortedByPriority(a[..i])
    modifies a
    ensures a[..i + 1] == Insert(old(a[..i]), old(a[i]))
    ensures forall k :: i < k < a.Length ==> a[k] == old(a[k])
  {
    ghost var sorted := a[..i];
    var key := a[i];
    var j := i;
    while j > 0 && a[j - 1].priority > key.priority
      invariant 0 <= j <= i
      invariant forall k :: 0 <= k < j ==> a[k] == sorted[k]
      invariant forall k :: j < k <= i ==> a[k] == sorted[k - 1]
      invariant forall k :: j <= k < i ==> key.priority < sorted[k].priority
      invariant forall k :: i < k < a.Length ==> a[k] == old(a[k])
    {
      a[j] := a[j - 1];
      j := j - 1;
    }
    a[j] := key;
    ShiftedIsInsert(sorted, key, j, a[..i + 1]);
  }

  /** `items.sort((a, b) => a.priority - b.priority)`, as an insertion sort in place. */
  method SortByPriority(a: array<Item>)
    modifies a
    ensures a[..] == ByPriority(old(a[..]))
  {
    ghost var orig := a[..];
    var i := 0;
    while i < a.Length
      invariant 0 <= i <= a.Length
      invariant a[..i] == ByPriority(orig[..i])
      invariant forall k :: i <= k < a.Length ==> a[k] == orig[k]
    {
      ByPrioritySorted(orig[..i]);
      InsertLast(a, i);
      assert orig[..i + 1][..i] == orig[..i];
      i := i + 1;
    }
    assert a[..] == a[..a.Length];
    assert orig[..a.Length] == orig;
  }

  /** Sorts a fresh array holding `items`, as the engine sorts its local lists. */
  method SortedByPriorityCopy(items: seq<Item>) returns (r: seq<Item>)
    ensures r == ByPriority(items)
  {
    var buffer := new Item[|items|](k requires 0 <= k < |items| => items[k]);
    assert buffer[..] == items;
    SortByPriority(buffer);
    r := buffer[..];
  }

  // ---------------------------------------------------------------------
  // Strategic notes and the combined list.
  // ---------------------------------------------------------------------

  const StrategicPriorityNote := "🎯 STRATEGIC PRIORITY: Focus on cybersecurity fundamentals first - authentication, backups, and training form your security foundation. [Est. 60-90 days, $2000-8000 total investment]"
  const BalanceNote := "⚖️ BALANCE RECOMMENDATION: Your advanced security exceeds your fundamentals. Strengthen your foundation for better overall protection. [30-day rebalancing focus]"
  const ComplianceNote := "🏛️ COMPLIANCE ROADMAP: Consider NIST Cybersecurity Framework adoption. Start with 'Identify' and 'Protect' functions. [90-day implementation, consider compliance consultant $5000-15000]"
  const AuthenticationNote := "🔐 IMMEDIATE ACTION (Week 1): Deploy Microsoft Authenticator company-wide. Free solution, 2-hour setup per user. [ROI: Prevents 99.9% of automated attacks]"
  const BackupNote := "💾 30-DAY GOAL: Implement 3-2-1 backup strategy. Recommended: Veeam + AWS S3 Glacier ($50-200/month). [Business continuity insurance against ransomware]"

  /** The pattern-based notes, in the order the engine appends them. */
  function StrategicNotes(a: Answers, cs: CategoryScores): (r: seq<string>)
    ensures |r| <= 5
  {
    var foundationAvg := Mean(cs.foundation);
    var advancedAvg := Mean(cs.advanced);
    (if foundationAvg < 0.7 then [StrategicPriorityNote] else [])
    + (if advancedAvg > foundationAvg + 0.3 then [BalanceNote] else [])
    + (if WeightOr0(a, "q9") < 1.0 then [ComplianceNote] else [])
    + (if WeightOr0(a, "q1") < 1.0 then [AuthenticationNote] else [])
    + (if WeightOr0(a, "q3") < 1.0 then [BackupNote] else [])
  }

  const GapMarker := "🚨 "
  const ImprovementMarker := "📈 "

  function Marked(marker: string, items: seq<Item>): (r: seq<string>)
    ensures |r| == |items|
    ensures forall k :: 0 <= k < |items| ==> r[k] == marker + items[k].suggestion
  {
    seq(|items|, k requires 0 <= k < |items| => marker + items[k].suggestion)
  }

  /** Every suggestion before the cut: gaps, then improvements, then strategic notes. */
  function AllSuggestions(a: Answers, qs: seq<Question>, cs: CategoryScores): (r: seq<string>)
    ensures |r| == |Gaps(a, qs)| + |Improvements(a, qs)| + |StrategicNotes(a, cs)|
    ensures r[|Gaps(a, qs)| + |Improvements(a, qs)|..] == StrategicNotes(a, cs)
  {
    Marked(GapMarker, ByPriority(Gaps(a, qs)))
    + Marked(ImprovementMarker, ByPriority(Improvements(a, qs)))
    + StrategicNotes(a, cs)
  }

  /** What the generator returns: the first ten suggestions. */
  function Recommendations(a: Answers, qs: seq<Question>, cs: CategoryScores): (r: seq<string>)
    ensures |r| <= 10
    ensures r <= AllSuggestions(a, qs, cs)
    ensures |r| == Min(10, |AllSuggestions(a, qs, cs)|)
  {
    Take(AllSuggestions(a, qs, cs), 10)
  }

  /** The scan over the questions that sorts weak answers into gaps and improvements. */
  method CollectItems(a: Answers, qs: seq<Question>) returns (criticalGaps: seq<Item>, improvements: seq<Item>)
    ensures criticalGaps == Gaps(a, qs)
    ensures improvements == Improvements(a, qs)
  {
    criticalGaps := [];
    improvements := [];
    for i := 0 to |qs|
      invariant criticalGaps == Gaps(a, qs[..i])
      invariant improvements == Improvements(a, qs[..i])
    {
      var item := qs[i];
      assert qs[..i + 1][..i] == qs[..i];
      if item.id in a {
        var picked := a[item.id];
        if picked.weight == 0.0 {
          criticalGaps := criticalGaps + [GapItem(item)];
        } else if picked.weight == 0.5 {
          improvements := improvements + [ImprovementItem(item)];
        }
      }
    }
    assert qs[..|qs|] == qs;
  }

  /** The pattern checks that append the strategic notes. */
  method StrategicSuggestions(a: Answers, cs: CategoryScores) returns (suggestions: seq<string>)
    ensures suggestions == StrategicNotes(a, cs)
  {
    suggestions := [];
    var foundationAvg := Mean(cs.foundation);
    var advancedAvg := Mean(cs.advanced);
    if foundationAvg < 0.7 {
      suggestions := suggestions + [StrategicPriorityNote];
    }
    ghost var expected := if foundationAvg < 0.7 then [StrategicPriorityNote] else [];
    assert suggestions == expected;
    if advancedAvg > foundationAvg + 0.3 {
      suggestions := suggestions + [BalanceNote];
    }
    expected := expected + if advancedAvg > foundationAvg + 0.3 then [BalanceNote] else [];
    assert suggestions == expected;
    var hasCompliance := WeightOr0(a, "q9");
    if hasCompliance < 1.0 {
      suggestions := suggestions + [ComplianceNote];
    }
    expected := expected + if hasCompliance < 1.0 then [ComplianceNote] else [];
    assert suggestions == expected;
    var mfaStatus := WeightOr0(a, "q1");
    if mfaStatus < 1.0 {
      suggestions := suggestions + [AuthenticationNote];
    }
    expected := expected + if mfaStatus < 1.0 then [AuthenticationNote] else [];
    assert suggestions == expected;
    var backupStatus := WeightOr0(a, "q3");
    if backupStatus < 1.0 {
      suggestions := suggestions + [BackupNote];
    }
    expected := expected + if backupStatus < 1.0 then [BackupNote] else [];
    assert suggestions == expected;
  }

  /** `generateDynamicSuggestions(answers, questions, categoryScores)` */
  method GenerateDynamicSuggestions(a: Answers, qs: seq<Question>, cs: CategoryScores) returns (r: seq<string>)
    ensures r == Recommendations(a, qs, cs)
  {
    var criticalGaps, improvements := CollectItems(a, qs);

    criticalGaps := SortedByPriorityCopy(criticalGaps);
    improvements := SortedByPriorityCopy(improvements);
    var suggestions := StrategicSuggestions(a, cs);
    var allSuggestions := Marked(GapMarker, criticalGaps) + Marked(ImprovementMarker, improvements) + suggestions;
    r := Take(allSuggestions, 10);
  }

  // ---------------------------------------------------------------------
  // Properties of the recommendations.
  // ---------------------------------------------------------------------

  /** Of the ids in the risk matrix only q1 is CRITICAL (HIGH impact and HIGH likelihood). */
  lemma CriticalOnlyForQ1(id: string)
    ensures Classify(RiskOf(id)) == Critical <==> id == "q1"
  {
  }

  /** Gap priorities run from 1 to 4; improvements rank two behind the same question's gap. */
  lemma PriorityRanges(q: Question)
    ensures 1 <= GapItem(q).priority <= 4
    ensures ImprovementItem(q).priority == GapItem(q).priority + 2
    ensures GapItem(q).riskLevel == Classify(RiskOf(q.id))
    ensures ImprovementItem(q).riskLevel == MediumRisk
  {
  }

  /** A question contributes a gap item exactly when it was answered with weight 0. */
  lemma {:induction false} GapsExactly(a: Answers, qs: seq<Question>)
    ensures forall q :: q in qs && q.id in a && a[q.id].weight == 0.0 ==> GapItem(q) in Gaps(a, qs)
    ensures forall it :: it in Gaps(a, qs) ==> exists q :: q in qs && q.id in a && a[q.id].weight == 0.0 && it == GapItem(q)
    decreases |qs|
  {
    if qs != [] {
      var init := qs[..|qs| - 1];
      GapsExactly(a, init);
      assert qs == init + [qs[|qs| - 1]];
      forall it | it in Gaps(a, qs)
        ensures exists q :: q in qs && q.id in a && a[q.id].weight == 0.0 && it == GapItem(q)
      {
        if it in Gaps(a, init) {
          var q :| q in init && q.id in a && a[q.id].weight == 0.0 && it == GapItem(q);
          assert q in qs;
        }
      }
    }
  }

  /** A question contributes an improvement item exactly when it was answered with weight 0.5. */
  lemma {:induction false} ImprovementsExactly(a: Answers, qs: seq<Question>)
    ensures forall q :: q in qs && q.id in a && a[q.id].weight == 0.5 ==> ImprovementItem(q) in Improvements(a, qs)
    ensures forall it :: it in Improvements(a, qs) ==> exists q :: q in qs && q.id in a && a[q.id].weight == 0.5 && it == ImprovementItem(q)
    decreases |qs|
  {
    if qs != [] {
      var init := qs[..|qs| - 1];
      ImprovementsExactly(a, init);
      assert qs == init + [qs[|qs| - 1]];
      forall it | it in Improvements(a, qs)
        ensures exists q :: q in qs && q.id in a && a[q.id].weight == 0.5 && it == ImprovementItem(q)
      {
        if it in Improvements(a, init) {
          var q :| q in init && q.id in a && a[q.id].weight == 0.5 && it == ImprovementItem(q);
          assert q in qs;
        }
      }
    }
  }

  /** When every question was answered with weight 0, every question yields a gap. */
  lemma {:induction false} AllBadAllGaps(a: Answers, qs: seq<Question>)
    requires forall k :: 0 <= k < |qs| ==> qs[k].id in a && a[qs[k].id].weight == 0.0
    ensures |Gaps(a, qs)| == |qs|
    ensures Improvements(a, qs) == []
    decreases |qs|
  {
    if qs != [] {
      AllBadAllGaps(a, qs[..|qs| - 1]);
    }
  }

  /** Critical gaps come first: the recommendations open with the marked gaps, most urgent first. */
  lemma GapsLead(a: Answers, qs: seq<Question>, cs: CategoryScores)
    ensures forall k :: 0 <= k < Min(10, |Gaps(a, qs)|) ==>
      Recommendations(a, qs, cs)[k] == GapMarker + ByPriority(Gaps(a, qs))[k].suggestion
  {
    var gapNotes := Marked(GapMarker, ByPriority(Gaps(a, qs)));
    var rest := Marked(ImprovementMarker, ByPriority(Improvements(a, qs))) + StrategicNotes(a, cs);
    assert AllSuggestions(a, qs, cs) == gapNotes + rest;
    TakeOfConcat(gapNotes, rest, 10);
  }

  /** With ten or more gaps every recommendation is a marked gap and nothing else fits. */
  lemma TenGapsFill(a: Answers, qs: seq<Question>, cs: CategoryScores)
    requires |Gaps(a, qs)| >= 10
    ensures |Recommendations(a, qs, cs)| == 10
    ensures forall k :: 0 <= k < 10 ==> Recommendations(a, qs, cs)[k][..|GapMarker|] == GapMarker
  {
    GapsLead(a, qs, cs);
    forall k | 0 <= k < 10
      ensures Recommendations(a, qs, cs)[k][..|GapMarker|] == GapMarker
    {
      var suggestion := ByPriority(Gaps(a, qs))[k].suggestion;
      assert (GapMarker + suggestion)[..|GapMarker|] == GapMarker;
    }
  }

  /**
   * No strategic note is added exactly when the foundation average reaches
   * 0.7, the advanced average does not exceed it by more than 0.3, and
   * compliance, MFA and backups were each answered with the best option.
   */
  lemma NoStrategicNotesIff(a: Answers, cs: CategoryScores)
    ensures StrategicNotes(a, cs) == [] <==>
      && Mean(cs.foundation) >= 0.7
      && Mean(cs.advanced) <= Mean(cs.foundation) + 0.3
      && WeightOr0(a, "q9") >= 1.0
      && WeightOr0(a, "q1") >= 1.0
      && WeightOr0(a, "q3") >= 1.0
  {
  }

  /** The five strategic notes have five different lengths, so no two are equal. */
  lemma NotesDistinct()
    ensures |StrategicPriorityNote| == 181 && |BalanceNote| == 161 && |ComplianceNote| == 185
    ensures |AuthenticationNote| == 154 && |BackupNote| == 151
  {
  }

  /** The strategic-priority note is present exactly when the foundation average is below 0.7. */
  lemma StrategicPriorityNoteIff(a: Answers, cs: CategoryScores)
    ensures StrategicPriorityNote in StrategicNotes(a, cs) <==> Mean(cs.foundation) < 0.7
  {
    NotesDistinct();
  }

  /** The balance note is present exactly when the advanced average exceeds the foundation average by more than 0.3. */
  lemma BalanceNoteIff(a: Answers, cs: CategoryScores)
    ensures BalanceNote in StrategicNotes(a, cs) <==> Mean(cs.advanced) > Mean(cs.foundation) + 0.3
  {
    NotesDistinct();
  }

  /** The compliance note is present exactly when compliance (q9) was not answered with the best option. */
  lemma ComplianceNoteIff(a: Answers, cs: CategoryScores)
    ensures ComplianceNote in StrategicNotes(a, cs) <==> WeightOr0(a, "q9") < 1.0
  {
    NotesDistinct();
  }

  /** The authenticator note is present exactly when MFA (q1) was not answered with the best option. */
  lemma AuthenticationNoteIff(a: Answers, cs: CategoryScores)
    ensures AuthenticationNote in StrategicNotes(a, cs) <==> WeightOr0(a, "q1") < 1.0
  {
    NotesDistinct();
  }

  /** The backup note is present exactly when backups (q3) were not answered with the best option. */
  lemma BackupNoteIff(a: Answers, cs: CategoryScores)
    ensures BackupNote in StrategicNotes(a, cs) <==> WeightOr0(a, "q3") < 1.0
  {
    NotesDistinct();
  }

  /** With only best answers the foundation average is 1 once a foundation question is answered. */
  lemma AllBestMeans(a: Answers, qs: seq<Question>)
    requires forall id :: id in a ==> a[id].weight == 1.0
    requires exists k :: 0 <= k < |qs| && qs[k].id in a && CategoryOf(qs[k].id) == Foundation
    ensures Mean(WeightsIn(a, qs, Foundation)) == 1.0
    ensures Mean(WeightsIn(a, qs, Advanced)) <= 1.0
  {
    AllOnes(a, qs, Foundation);
    AllOnes(a, qs, Advanced);
    MeanOfOnes(WeightsIn(a, qs, Foundation));
    MeanOfOnes(WeightsIn(a, qs, Advanced));
    WeightsInMembership(a, qs, Foundation);
  }

  /**
   * A perfect assessment: every answer is the best one, and compliance (q9),
   * MFA (q1) and backups (q3) are among them, with q1 one of the questions
   * asked. Then there is nothing to recommend.
   */
  lemma AllBestNoRecommendations(a: Answers, qs: seq<Question>)
    requires forall id :: id in a ==> a[id].weight == 1.0
    requires "q1" in a && "q3" in a && "q9" in a
    requires exists k :: 0 <= k < |qs| && qs[k].id == "q1"
    ensures Recommendations(a, qs, Categorized(a, qs)) == []
  {
    var cs := Categorized(a, qs);
    NoWeakAnswers(a, qs);
    var k :| 0 <= k < |qs| && qs[k].id == "q1";
    assert CategoryOf(qs[k].id) == Foundation;
    AllBestMeans(a, qs);
    NoStrategicNotesIff(a, cs);
    assert AllSuggestions(a, qs, cs) == [];
  }

  /** With only best answers no question yields a gap or an improvement. */
  lemma {:induction false} NoWeakAnswers(a: Answers, qs: seq<Question>)
    requires forall id :: id in a ==> a[id].weight == 1.0
    ensures Gaps(a, qs) == [] && Improvements(a, qs) == []
    decreases |qs|
  {
    if qs != [] {
      NoWeakAnswers(a, qs[..|qs| - 1]);
    }
  }

  /** With only best answers every category list holds only ones. */
  lemma {:induction false} AllOnes(a: Answers, qs: seq<Question>, c: Category)
    requires forall id :: id in a ==> a[id].weight == 1.0
    ensures forall k :: 0 <= k < |WeightsIn(a, qs, c)| ==> WeightsIn(a, qs, c)[k] == 1.0
    decreases |qs|
  {
    if qs != [] {
      AllOnes(a, qs[..|qs| - 1], c);
    }
  }
}
