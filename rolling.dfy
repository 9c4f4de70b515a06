/**
 * Whole-window aggregates over real-valued columns: the arithmetic behind
 * pandas' `rolling(window=w).min()/.max()/.mean()` evaluated at one row.
 * A window that does not fit (fewer than `w` rows up to row `i`, or `w == 0`)
 * yields `None`, which stands for pandas' NaN.
 */
module Rolling {
  import opened Wrappers

  /** Smallest element of a non-empty sequence. */
  function Min(s: seq<real>): (m: real)
    requires |s| > 0
    ensures forall i :: 0 <= i < |s| ==> m <= s[i]
    ensures exists i :: 0 <= i < |s| && m == s[i]
  {
    if |s| == 1 then s[0]
    else
      var rest := Min(s[1..]);
      assert forall i :: 1 <= i < |s| ==> s[i] == s[1..][i - 1];
      if s[0] <= rest then s[0] else rest
  }

  /** Largest element of a non-empty sequence. */
  function Max(s: seq<real>): (m: real)
    requires |s| > 0
    ensures forall i :: 0 <= i < |s| ==> s[i] <= m
    ensures exists i :: 0 <= i < |s| && m == s[i]
  {
    if |s| == 1 then s[0]
    else
      var rest := Max(s[1..]);
      assert forall i :: 1 <= i < |s| ==> s[i] == s[1..][i - 1];
      if s[0] >= rest then s[0] else rest
  }

  function Sum(s: seq<real>): real
  {
    if |s| == 0 then 0.0 else s[0] + Sum(s[1..])
  }

  function Mean(s: seq<real>): real
    requires |s| > 0
  {
    Sum(s) / (|s| as real)
  }

  /** The mean of three values, as a window of three rows. */
  lemma MeanOfThree(a: real, b: real, c: real)
    ensures Mean([a, b, c]) == (a + b + c) / 3.0
  {
    var s := [a, b, c];
    assert s[1..] == [b, c] && s[1..][1..] == [c] && s[1..][1..][1..] == [];
    assert Sum(s[1..][1..]) == c;
    assert Sum(s) == a + b + c;
    assert |s| as real == 3.0;
  }

  /** Bounds on every element bound the sum. */
  lemma {:induction false} SumBounds(s: seq<real>, lo: real, hi: real)
    requires forall i :: 0 <= i < |s| ==> lo <= s[i] <= hi
    ensures (|s| as real) * lo <= Sum(s) <= (|s| as real) * hi
  {
    if |s| > 0 {
      assert forall i :: 0 <= i < |s| - 1 ==> s[1..][i] == s[i + 1];
      SumBounds(s[1..], lo, hi);
    }
  }

  /** Dividing by a positive count preserves bounds. */
  lemma DivideBounds(n: real, lo: real, hi: real, t: real)
    requires n > 0.0
    requires n * lo <= t <= n * hi
    ensures lo <= t / n <= hi
  {
    var q := t / n;
    assert q * n == t;
    assert n * lo - t == n * (lo - q);
    assert n * hi - t == n * (hi - q);
  }

  /** Bounds on every element bound the mean. */
  lemma MeanWithin(s: seq<real>, lo: real, hi: real)
    requires |s| > 0
    requires forall i :: 0 <= i < |s| ==> lo <= s[i] <= hi
    ensures lo <= Mean(s) <= hi
  {
    SumBounds(s, lo, hi);
    DivideBounds(|s| as real, lo, hi, Sum(s));
  }

  /** The mean of a window lies between its minimum and its maximum. */
  lemma MeanBounds(s: seq<real>)
    requires |s| > 0
    ensures Min(s) <= Mean(s) <= Max(s)
  {
    MeanWithin(s, Min(s), Max(s));
  }

  /** True when a window of `w` rows ending at row `i` exists. */
  predicate Fits(n: nat, w: nat, i: nat)
  {
    1 <= w && w <= i + 1 && i < n
  }

  /** The `w` values ending at row `i` (rows `i - w + 1 .. i`). */
  function Window(xs: seq<real>, w: nat, i: nat): (win: seq<real>)
    requires Fits(|xs|, w, i)
    ensures |win| == w
    ensures forall k :: 0 <= k < w ==> win[k] == xs[i + 1 - w + k]
  {
    xs[i + 1 - w .. i + 1]
  }

  function RollingMin(xs: seq<real>, w: nat, i: nat): Option<real>
  {
    if Fits(|xs|, w, i) then Some(Min(Window(xs, w, i))) else None
  }

  function RollingMax(xs: seq<real>, w: nat, i: nat): Option<real>
  {
    if Fits(|xs|, w, i) then Some(Max(Window(xs, w, i))) else None
  }

  function RollingMean(xs: seq<real>, w: nat, i: nat): Option<real>
  {
    if Fits(|xs|, w, i) then Some(Mean(Window(xs, w, i))) else None
  }
}
