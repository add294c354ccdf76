/** Sums, means and extrema of hourly columns, with the facts about them that the optimizers use. */
module Sums {

  /** Sum of a column, accumulated front to back as a running total would be. */
  function Sum(s: seq<real>): real
  {
    if s == [] then 0.0 else Sum(s[..|s| - 1]) + s[|s| - 1]
  }

  function Max(a: real, b: real): real
  {
    if a >= b then a else b
  }

  /** The column with every entry replaced by `c`, `n` times. */
  function Constant(n: nat, c: real): (s: seq<real>)
    ensures |s| == n && forall i :: 0 <= i < n ==> s[i] == c
  {
    seq(n, _ => c)
  }

  /** A running maximum that starts at 0, as an accumulator initialised to 0 and raised by `max` does. */
  function Peak(s: seq<real>): (r: real)
    ensures r >= 0.0
    ensures forall i :: 0 <= i < |s| ==> s[i] <= r
    ensures r == 0.0 || r in s
  {
    if s == [] then 0.0
    else
      var front := s[..|s| - 1];
      assert forall i :: 0 <= i < |front| ==> front[i] == s[i];
      Max(Peak(front), s[|s| - 1])
  }

  /** Largest entry of a non-empty column. */
  function MaxOf(s: seq<real>): (r: real)
    requires |s| > 0
    ensures r in s
    ensures forall i :: 0 <= i < |s| ==> s[i] <= r
  {
    if |s| == 1 then s[0]
    else
      var front := s[..|s| - 1];
      assert forall i :: 0 <= i < |front| ==> front[i] == s[i];
      Max(MaxOf(front), s[|s| - 1])
  }

  /** Smallest entry of a non-empty column. */
  function MinOf(s: seq<real>): (r: real)
    requires |s| > 0
    ensures r in s
    ensures forall i :: 0 <= i < |s| ==> r <= s[i]
  {
    if |s| == 1 then s[0]
    else
      var front := s[..|s| - 1];
      assert forall i :: 0 <= i < |front| ==> front[i] == s[i];
      var m := MinOf(front);
      if m <= s[|s| - 1] then m else s[|s| - 1]
  }

  lemma MulNonNegative(a: real, b: real)
    requires a >= 0.0 && b >= 0.0
    ensures a * b >= 0.0
  {
  }

  /** Arithmetic mean of a non-empty column. */
  function Mean(s: seq<real>): real
    requires |s| > 0
  {
    Sum(s) / |s| as real
  }

  lemma {:induction false} SumOfPrefix(s: seq<real>, i: nat)
    requires i < |s|
    ensures Sum(s[..i + 1]) == Sum(s[..i]) + s[i]
  {
    assert s[..i + 1][..i] == s[..i];
  }

  /** Appending one entry adds it to the sum. */
  lemma SumSnoc(s: seq<real>, x: real)
    ensures Sum(s + [x]) == Sum(s) + x
  {
    assert (s + [x])[..|s|] == s;
  }

  /** Appending one entry raises the running peak to it if it is larger. */
  lemma PeakSnoc(s: seq<real>, x: real)
    ensures Peak(s + [x]) == Max(Peak(s), x)
  {
    assert (s + [x])[..|s|] == s;
  }

  lemma {:induction false} SumNonNegative(s: seq<real>)
    requires forall i :: 0 <= i < |s| ==> s[i] >= 0.0
    ensures Sum(s) >= 0.0
  {
    if s != [] {
      SumNonNegative(s[..|s| - 1]);
    }
  }

  /** Summing is monotone entry by entry. */
  lemma {:induction false} SumMonotone(a: seq<real>, b: seq<real>)
    requires |a| == |b|
    requires forall i :: 0 <= i < |a| ==> a[i] <= b[i]
    ensures Sum(a) <= Sum(b)
  {
    if a != [] {
      SumMonotone(a[..|a| - 1], b[..|b| - 1]);
    }
  }

  lemma {:induction false} SumConstant(n: nat, c: real)
    ensures Sum(Constant(n, c)) == n as real * c
  {
    if n > 0 {
      assert Constant(n, c)[..n - 1] == Constant(n - 1, c);
      SumConstant(n - 1, c);
    }
  }

  /** The sum of entry-wise sums is the sum of the two sums. */
  lemma {:induction false} SumAdd(a: seq<real>, b: seq<real>, c: seq<real>)
    requires |a| == |b| == |c|
    requires forall i :: 0 <= i < |c| ==> c[i] == a[i] + b[i]
    ensures Sum(c) == Sum(a) + Sum(b)
  {
    if c != [] {
      SumAdd(a[..|a| - 1], b[..|b| - 1], c[..|c| - 1]);
    }
  }

  /** Scaling every entry scales the sum. */
  lemma {:induction false} SumScale(a: seq<real>, k: real, c: seq<real>)
    requires |a| == |c|
    requires forall i :: 0 <= i < |c| ==> c[i] == k * a[i]
    ensures Sum(c) == k * Sum(a)
  {
    if c != [] {
      SumScale(a[..|a| - 1], k, c[..|c| - 1]);
    }
  }

  /** A column bounded by `m` sums to at most `|s| * m`, with equality exactly when every entry is `m`. */
  lemma {:induction false} SumAtMostBound(s: seq<real>, m: real)
    requires forall i :: 0 <= i < |s| ==> s[i] <= m
    ensures Sum(s) <= |s| as real * m
    ensures Sum(s) == |s| as real * m <==> forall i :: 0 <= i < |s| ==> s[i] == m
  {
    if s != [] {
      var front := s[..|s| - 1];
      SumAtMostBound(front, m);
      if Sum(s) == |s| as real * m {
        assert s[|s| - 1] == m;
        assert forall i :: 0 <= i < |s| ==> s[i] == m by {
          forall i | 0 <= i < |s| ensures s[i] == m {
            if i < |s| - 1 { assert front[i] == s[i]; }
          }
        }
      }
    }
  }
}
