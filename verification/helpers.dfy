/**
 * General helpers: the Fisher-Yates shuffle, the score-to-hue mapping,
 * and the fallback of the grading call.
 */
module Helpers {
  import opened Js
  import opened Server

  /** A draw of `Math.random()`: a number in [0, 1). */
  predicate IsDraw(d: real) {
    0.0 <= d < 1.0
  }

  /** A draw scaled by a positive `n` lies in [0, n). */
  lemma DrawScaled(d: real, n: real)
    requires IsDraw(d) && n > 0.0
    ensures 0.0 <= d * n < n
  {
    assert d * n < n by {
      assert (1.0 - d) * n > 0.0;
    }
  }

  /**
   * `Math.floor(Math.random() * (i + 1))` for the draw `d`: always in
   * [0, i], so both swapped positions are in bounds.
   */
  function RandomIndex(d: real, i: nat): (j: int)
    ensures IsDraw(d) ==> 0 <= j <= i
  {
    var n := (i + 1) as real;
    if IsDraw(d) then
      DrawScaled(d, n);
      (d * n).Floor
    else
      (d * n).Floor
  }

  /**
   * `shuffle(arr)`: copies the array, then for i from length - 1 down to 1
   * swaps position i with a random position j in [0, i]. The draw used at
   * step i is `draws[i]`.
   */
  method Shuffle<T>(arr: seq<T>, draws: seq<real>) returns (r: seq<T>)
    requires |draws| >= |arr|
    requires forall k :: 0 <= k < |draws| ==> IsDraw(draws[k])
    ensures |r| == |arr|
    ensures multiset(r) == multiset(arr)
    ensures |arr| <= 1 ==> r == arr
  {
    var a := new T[|arr|](k requires 0 <= k < |arr| => arr[k]);
    assert a[..] == arr;
    var i := a.Length - 1;
    while i > 0
      invariant -1 <= i < a.Length
      invariant multiset(a[..]) == multiset(arr)
      invariant a.Length <= 1 ==> a[..] == arr
      decreases i
    {
      var j := RandomIndex(draws[i], i);
      ghost var before := a[..];
      a[i], a[j] := a[j], a[i];
      assert a[..] == Swapped(before, i, j);
      SwapKeepsMultiset(before, i, j);
      i := i - 1;
    }
    r := a[..];
  }

  /** `s` with the elements at `i` and `j` exchanged. */
  ghost function Swapped<T>(s: seq<T>, i: nat, j: nat): seq<T>
    requires i < |s| && j < |s|
  {
    s[i := s[j]][j := s[i]]
  }

  /** Exchanging two elements keeps the same elements. */
  lemma SwapKeepsMultiset<T>(s: seq<T>, i: nat, j: nat)
    requires i < |s| && j < |s|
    ensures |Swapped(s, i, j)| == |s|
    ensures multiset(Swapped(s, i, j)) == multiset(s)
  {
  }

  /** `pctToHue(p)`: the percentage clamped to [0, 100], scaled to a hue between 0 (red) and 120 (green). */
  function PctToHue(p: real): (hue: int)
    ensures 0 <= hue <= 120
    ensures p <= 0.0 ==> hue == 0
    ensures p >= 100.0 ==> hue == 120
  {
    var x := Clamp(0.0, 100.0, p) / 100.0 * 120.0;
    RoundMonotone(0.0, x);
    RoundMonotone(x, 120.0);
    RoundOfInt(0);
    RoundOfInt(120);
    Round(x)
  }

  /** A higher percentage never gives a redder hue. */
  lemma PctToHueMonotone(p: real, q: real)
    requires p <= q
    ensures PctToHue(p) <= PctToHue(q)
  {
    var x := Clamp(0.0, 100.0, p) / 100.0 * 120.0;
    var y := Clamp(0.0, 100.0, q) / 100.0 * 120.0;
    RoundMonotone(x, y);
  }

  /**
   * The grade as the client sees it: `score` and `notes` of the JSON it
   * received, each `None` when the field is missing.
   */
  datatype AiGrade = AiGrade(score: Option<Number>, notes: Option<seq<string>>)

  /**
   * `gradeWithAI(answers, percent, localNotes)`: the endpoint's response, or,
   * when the request fails (`response == None`), the local score and notes.
   * Either way both fields are present.
   */
  function GradeWithAI(response: Option<Response>, percent: Number, localNotes: seq<string>): (grade: AiGrade)
    ensures grade.score.Some? && grade.notes.Some?
    ensures response.None? ==> grade == AiGrade(Some(percent), Some(localNotes))
    ensures response.Some? ==> grade.score == Some(Finite(response.value.score)) && grade.notes == Some(response.value.notes)
  {
    match response
    case None => AiGrade(Some(percent), Some(localNotes))
    case Some(r) => AiGrade(Some(Finite(r.score)), Some(r.notes))
  }
}
