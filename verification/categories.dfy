/**
 * The three question categories the scoring engine groups answers into,
 * their multipliers, and the per-category weight lists (`categoryScores`)
 * that both the score and the recommendations are computed from.
 */
module Categories {
  import opened Questions

  datatype Category = Foundation | Advanced | Culture

  /** Fixed id lists: q1, q3, q8 are foundation, q6, q7, q9 advanced, any other id culture. */
  function CategoryOf(id: string): (c: Category)
  {
    if id == "q1" || id == "q3" || id == "q8" then Foundation
    else if id == "q6" || id == "q7" || id == "q9" then Advanced
    else Culture
  }

  /** q1, q3 and q8 are exactly the foundation ids, q6, q7 and q9 exactly the advanced ones. */
  lemma CategoryOfIff(id: string)
    ensures CategoryOf(id) == Foundation <==> id in {"q1", "q3", "q8"}
    ensures CategoryOf(id) == Advanced <==> id in {"q6", "q7", "q9"}
  {
  }

  /** Category multipliers 1.2, 1.0 and 0.8. */
  function Multiplier(c: Category): (m: real)
    ensures 0.8 <= m <= 1.2
  {
    match c
    case Foundation => 1.2
    case Advanced => 1.0
    case Culture => 0.8
  }

  /** `x` times the category's multiplier, one linear case per category. */
  function Scaled(c: Category, x: real): real {
    match c
    case Foundation => 1.2 * x
    case Advanced => 1.0 * x
    case Culture => 0.8 * x
  }

  lemma ScaledIsProduct(c: Category, x: real)
    ensures Scaled(c, x) == Multiplier(c) * x
  {
  }

  /** The weights recorded per category, in the order the questions were visited. */
  datatype CategoryScores = CategoryScores(foundation: seq<real>, advanced: seq<real>, culture: seq<real>) {
    function Of(c: Category): seq<real> {
      match c
      case Foundation => foundation
      case Advanced => advanced
      case Culture => culture
    }
  }

  /** `answers[id]?.weight || 0`: the weight picked for `id`, 0 when unanswered. */
  function WeightOr0(a: Answers, id: string): (w: real)
    ensures id !in a ==> w == 0.0
    ensures UnitWeights(a) ==> 0.0 <= w <= 1.0
  {
    if id in a then a[id].weight else 0.0
  }

  /** Every weight in the answer map lies in [0, 1], as the catalog guarantees. */
  predicate UnitWeights(a: Answers) {
    forall id :: id in a ==> 0.0 <= a[id].weight <= 1.0
  }

  predicate AllInUnit(s: seq<real>) {
    forall k :: 0 <= k < |s| ==> 0.0 <= s[k] <= 1.0
  }

  /** The weights of the answered questions of category `c`, in question order. */
  function WeightsIn(a: Answers, qs: seq<Question>, c: Category): seq<real>
    decreases |qs|
  {
    if qs == [] then []
    else
      var q := qs[|qs| - 1];
      WeightsIn(a, qs[..|qs| - 1], c) + (if q.id in a && CategoryOf(q.id) == c then [a[q.id].weight] else [])
  }

  /** The weights of all answered questions, in question order. */
  function AnsweredWeights(a: Answers, qs: seq<Question>): seq<real>
    decreases |qs|
  {
    if qs == [] then []
    else
      var q := qs[|qs| - 1];
      AnsweredWeights(a, qs[..|qs| - 1]) + (if q.id in a then [a[q.id].weight] else [])
  }

  /** The category lists the engine builds from `a` and `qs`. */
  function Categorized(a: Answers, qs: seq<Question>): CategoryScores {
    CategoryScores(WeightsIn(a, qs, Foundation), WeightsIn(a, qs, Advanced), WeightsIn(a, qs, Culture))
  }

  /** `scores.reduce((sum, score) => sum + score, 0)` */
  function Sum(s: seq<real>): (r: real)
    ensures (forall k :: 0 <= k < |s| ==> 0.0 <= s[k]) ==> 0.0 <= r
    decreases |s|
  {
    if s == [] then 0.0 else Sum(s[..|s| - 1]) + s[|s| - 1]
  }

  /** The average of a category list, 0 for an empty one. */
  function Mean(s: seq<real>): (m: real)
    ensures |s| == 0 ==> m == 0.0
    ensures |s| > 0 ==> m * (|s| as real) == Sum(s)
  {
    if |s| > 0 then Sum(s) / (|s| as real) else 0.0
  }

  lemma {:induction false} SumAppend(s: seq<real>, x: real)
    ensures Sum(s + [x]) == Sum(s) + x
  {
    assert (s + [x])[..|s|] == s;
  }

  /** A list of weights in [0, 1] sums to between 0 and its length. */
  lemma {:induction false} SumBounds(s: seq<real>)
    requires AllInUnit(s)
    ensures 0.0 <= Sum(s) <= |s| as real
  {
    if s != [] {
      SumBounds(s[..|s| - 1]);
    }
  }

  /** A list whose weights are all 1 sums to its length; one whose weights are all 0 sums to 0. */
  lemma {:induction false} SumOfConstant(s: seq<real>, w: real)
    requires forall k :: 0 <= k < |s| ==> s[k] == w
    ensures Sum(s) == w * (|s| as real)
  {
    if s != [] {
      SumOfConstant(s[..|s| - 1], w);
    }
  }

  /** A list of ones averages 1, and the empty list averages 0. */
  lemma MeanOfOnes(s: seq<real>)
    requires forall k :: 0 <= k < |s| ==> s[k] == 1.0
    ensures Mean(s) == if |s| > 0 then 1.0 else 0.0
  {
    SumOfConstant(s, 1.0);
    if |s| > 0 {
      var n := |s| as real;
      assert Sum(s) == n;
      assert n / n == 1.0;
    }
  }

  /** The average of weights in [0, 1] lies in [0, 1]. */
  lemma MeanInUnit(s: seq<real>)
    requires AllInUnit(s)
    ensures 0.0 <= Mean(s) <= 1.0
  {
    if |s| > 0 {
      SumBounds(s);
      var n := |s| as real;
      assert Sum(s) / n <= n / n;
    }
  }

  /** Every weight in a category list lies in [0, 1] when every answer weight does. */
  lemma {:induction false} WeightsInUnit(a: Answers, qs: seq<Question>, c: Category)
    requires UnitWeights(a)
    ensures AllInUnit(WeightsIn(a, qs, c))
    decreases |qs|
  {
    if qs != [] {
      WeightsInUnit(a, qs[..|qs| - 1], c);
    }
  }

  /**
   * Each answered question's weight lands in exactly one category list and
   * unanswered questions land in none: together the three lists are the
   * answered weights, counted with multiplicity.
   */
  lemma {:induction false} CategoriesPartitionAnswers(a: Answers, qs: seq<Question>)
    ensures multiset(WeightsIn(a, qs, Foundation)) + multiset(WeightsIn(a, qs, Advanced)) + multiset(WeightsIn(a, qs, Culture))
         == multiset(AnsweredWeights(a, qs))
    decreases |qs|
  {
    if qs != [] {
      CategoriesPartitionAnswers(a, qs[..|qs| - 1]);
    }
  }

  /** The three category lists together are as long as the number of answered questions. */
  lemma {:induction false} CategoriesCountAnswers(a: Answers, qs: seq<Question>)
    ensures |WeightsIn(a, qs, Foundation)| + |WeightsIn(a, qs, Advanced)| + |WeightsIn(a, qs, Culture)|
         == |AnsweredWeights(a, qs)|
    decreases |qs|
  {
    if qs != [] {
      CategoriesCountAnswers(a, qs[..|qs| - 1]);
    }
  }

  /** A question's weight is recorded under its category exactly when it is answered. */
  lemma {:induction false} WeightsInMembership(a: Answers, qs: seq<Question>, c: Category)
    ensures |WeightsIn(a, qs, c)| > 0 <==> exists k :: 0 <= k < |qs| && qs[k].id in a && CategoryOf(qs[k].id) == c
    decreases |qs|
  {
    if qs != [] {
      var init := qs[..|qs| - 1];
      WeightsInMembership(a, init, c);
      if exists k :: 0 <= k < |init| && init[k].id in a && CategoryOf(init[k].id) == c {
        var k :| 0 <= k < |init| && init[k].id in a && CategoryOf(init[k].id) == c;
        assert qs[k] == init[k];
      }
      if exists k :: 0 <= k < |qs| && qs[k].id in a && CategoryOf(qs[k].id) == c {
        var k :| 0 <= k < |qs| && qs[k].id in a && CategoryOf(qs[k].id) == c;
        if k < |init| {
          assert init[k] == qs[k];
        }
      }
    }
  }
}
