/**
 * The Python builtins the bot relies on (`min`, `max`, `sum`, `round`),
 * over exact reals, and the exceptions its handlers tell apart.
 */
module Builtins {

  /**
   * An exception as the handlers see it: each handler has one
   * `except ValueError` arm and one `except Exception` arm, so only
   * ValueError needs to be told apart from the rest.
   */
  datatype Raised = ValueError | OtherError(reason: string)

  /** Python's `str.startswith`. */
  predicate StartsWith(s: string, prefix: string)
  {
    |prefix| <= |s| && s[..|prefix|] == prefix
  }

  /** Python's `min` over a non-empty list of prices. */
  function Min(s: seq<real>): real
    requires |s| > 0
  {
    if |s| == 1 then s[0]
    else
      var m0 := Min(s[..|s| - 1]);
      if s[|s| - 1] < m0 then s[|s| - 1] else m0
  }

  /** Python's `max` over a non-empty list of prices. */
  function Max(s: seq<real>): real
    requires |s| > 0
  {
    if |s| == 1 then s[0]
    else
      var m0 := Max(s[..|s| - 1]);
      if s[|s| - 1] > m0 then s[|s| - 1] else m0
  }

  /** `min` returns one of the prices, and none is smaller. */
  lemma {:induction false} MinIsLeast(s: seq<real>)
    requires |s| > 0
    ensures Min(s) in s
    ensures forall i :: 0 <= i < |s| ==> Min(s) <= s[i]
  {
    if |s| > 1 {
      var t := s[..|s| - 1];
      MinIsLeast(t);
      assert forall i :: 0 <= i < |t| ==> s[i] == t[i];
    }
  }

  /** `max` returns one of the prices, and none is greater. */
  lemma {:induction false} MaxIsGreatest(s: seq<real>)
    requires |s| > 0
    ensures Max(s) in s
    ensures forall i :: 0 <= i < |s| ==> s[i] <= Max(s)
  {
    if |s| > 1 {
      var t := s[..|s| - 1];
      MaxIsGreatest(t);
      assert forall i :: 0 <= i < |t| ==> s[i] == t[i];
    }
  }

  /** Python's `sum`: starts at 0 and adds left to right. */
  function Sum(s: seq<real>): real
  {
    if s == [] then 0.0 else Sum(s[..|s| - 1]) + s[|s| - 1]
  }

  /** `sum(prices) / len(prices)`. */
  function Mean(s: seq<real>): real
    requires |s| > 0
  {
    Sum(s) / |s| as real
  }

  /** n copies of x; named so that the solver treats the product as one term. */
  function Times(n: real, x: real): real
  {
    n * x
  }

  /** A sum of prices none below lo is at least lo times their number. */
  lemma {:induction false} SumAtLeast(s: seq<real>, lo: real)
    requires forall i :: 0 <= i < |s| ==> lo <= s[i]
    ensures Times(|s| as real, lo) <= Sum(s)
  {
    if s != [] {
      var t := s[..|s| - 1];
      SumAtLeast(t, lo);
      assert Times(|s| as real, lo) == Times(|t| as real, lo) + lo;
    }
  }

  /** A sum of prices none above hi is at most hi times their number. */
  lemma {:induction false} SumAtMost(s: seq<real>, hi: real)
    requires forall i :: 0 <= i < |s| ==> s[i] <= hi
    ensures Sum(s) <= Times(|s| as real, hi)
  {
    if s != [] {
      var t := s[..|s| - 1];
      SumAtMost(t, hi);
      assert Times(|s| as real, hi) == Times(|t| as real, hi) + hi;
    }
  }

  /** Dividing `n * lo <= x` by a positive n. */
  lemma DivideLower(x: real, n: real, lo: real)
    requires n > 0.0 && Times(n, lo) <= x
    ensures lo <= x / n
  {
    assert x / n * n == x;
  }

  /** Dividing `x <= n * hi` by a positive n. */
  lemma DivideUpper(x: real, n: real, hi: real)
    requires n > 0.0 && x <= Times(n, hi)
    ensures x / n <= hi
  {
    assert x / n * n == x;
  }

  /** The mean of a non-empty list lies between its least and greatest elements. */
  lemma MeanBetween(s: seq<real>)
    requires |s| > 0
    ensures Min(s) <= Mean(s) <= Max(s)
  {
    MinIsLeast(s);
    SumAtLeast(s, Min(s));
    DivideLower(Sum(s), |s| as real, Min(s));
    MaxIsGreatest(s);
    SumAtMost(s, Max(s));
    DivideUpper(Sum(s), |s| as real, Max(s));
  }

  /**
   * Python's `round(x, 2)` on an exact value: the nearest multiple of 0.01,
   * a tie going to the even hundredth.
   */
  function Round2(x: real): (r: real)
    ensures -0.005 <= r - x <= 0.005
    ensures (r * 100.0).Floor as real == r * 100.0
  {
    var y := x * 100.0;
    var f := y.Floor;
    var frac := y - f as real;
    var n := if frac < 0.5 then f
             else if frac > 0.5 then f + 1
             else if f % 2 == 0 then f else f + 1;
    n as real / 100.0
  }

  /** A value already a whole number of hundredths is left as it is. */
  lemma Round2Exact(x: real)
    requires (x * 100.0).Floor as real == x * 100.0
    ensures Round2(x) == x
  {
  }
}
