/**
 * The few JavaScript built-ins the application leans on, stated over
 * exact numbers: `Math.round`, `Math.min`/`Math.max` used as a clamp,
 * `Array.prototype.slice(0, n)`, and `undefined` as an `Option`.
 */
module Js {

  /** A value that may be absent (`undefined` or `null` in the source). */
  datatype Option<+T> = None | Some(value: T) {
    /** `x ?? d` */
    function GetOr(default: T): T {
      match this
      case Some(v) => v
      case None => default
    }
  }

  /** A JavaScript number: a finite value or `NaN` (infinities do not arise here). */
  datatype Number = Finite(value: real) | NotANumber

  /** `Math.round`: the nearest integer, half-way values going up. */
  function Round(x: real): (r: int)
    ensures x - 0.5 < r as real <= x + 0.5
  {
    (x + 0.5).Floor
  }

  lemma RoundMonotone(x: real, y: real)
    requires x <= y
    ensures Round(x) <= Round(y)
  {
  }

  lemma RoundOfInt(n: int)
    ensures Round(n as real) == n
  {
  }

  /** `Math.max(lo, Math.min(hi, x))` */
  function Clamp(lo: real, hi: real, x: real): (r: real)
    requires lo <= hi
    ensures lo <= r <= hi
    ensures lo <= x <= hi ==> r == x
    ensures x < lo ==> r == lo
    ensures hi < x ==> r == hi
  {
    if x < lo then lo else if hi < x then hi else x
  }

  /** `Math.max(lo, Math.min(hi, n))` on integers: `Clamp` restricted to them. */
  function ClampInt(lo: int, hi: int, n: int): (r: int)
    requires lo <= hi
    ensures r as real == Clamp(lo as real, hi as real, n as real)
  {
    if n < lo then lo else if hi < n then hi else n
  }

  /** `Math.min(a, b)` */
  function Min(a: int, b: int): (r: int)
    ensures r <= a && r <= b
    ensures r == a || r == b
  {
    if a <= b then a else b
  }

  /** `xs.slice(0, n)`: the first `n` elements, or all of them when there are fewer. */
  function Take<T>(xs: seq<T>, n: nat): (r: seq<T>)
    ensures |r| == Min(n, |xs|)
    ensures r <= xs
  {
    if |xs| <= n then xs else xs[..n]
  }

  /** The first `n` elements of `lead + rest` begin with those of `lead`. */
  lemma TakeOfConcat<T>(lead: seq<T>, rest: seq<T>, n: nat)
    ensures forall k :: 0 <= k < Min(n, |lead|) ==> Take(lead + rest, n)[k] == lead[k]
  {
  }

  /** Removing the element at `i` removes one copy of it. */
  lemma RemoveAt<T>(ys: seq<T>, i: nat)
    requires i < |ys|
    ensures multiset(ys[..i] + ys[i + 1..]) == multiset(ys) - multiset{ys[i]}
  {
    assert ys == ys[..i] + [ys[i]] + ys[i + 1..];
  }

  /**
   * If two lists hold the same elements, the last element of the first
   * sits somewhere in the second, and removing the two leaves lists that
   * still hold the same elements.
   */
  lemma MatchLast<T>(xs: seq<T>, ys: seq<T>) returns (i: nat)
    requires xs != [] && multiset(xs) == multiset(ys)
    ensures i < |ys| && ys[i] == xs[|xs| - 1]
    ensures multiset(xs[..|xs| - 1]) == multiset(ys[..i] + ys[i + 1..])
  {
    var n := |xs| - 1;
    RemoveAt(xs, n);
    assert xs[..n] + xs[n + 1..] == xs[..n];
    assert xs[n] in multiset(ys);
    i :| 0 <= i < |ys| && ys[i] == xs[n];
    RemoveAt(ys, i);
  }
}
