/** Sums, absolute value and Python's rounding. */
module Arithmetic {
  function Sum(xs: seq<int>): int {
    if xs == [] then 0 else Sum(xs[..|xs| - 1]) + xs[|xs| - 1]
  }

  function SumReal(xs: seq<real>): real {
    if xs == [] then 0.0 else SumReal(xs[..|xs| - 1]) + xs[|xs| - 1]
  }

  function Abs(x: real): (a: real)
    ensures a >= 0.0 && -a <= x <= a
  {
    if x < 0.0 then -x else x
  }

  /** Python's `round`: to nearest, ties to even. */
  function Round(x: real): int {
    var f := x.Floor;
    var d := x - f as real;
    if d < 0.5 then f else if d > 0.5 then f + 1 else if f % 2 == 0 then f else f + 1
  }

  /** `max(lo, min(hi, round(x)))` */
  function ClampedRound(x: real, lo: int, hi: int): int {
    var k := if hi < Round(x) then hi else Round(x);
    if lo > k then lo else k
  }

  lemma {:induction false} SumPositive(xs: seq<int>)
    requires xs != [] && forall i :: 0 <= i < |xs| ==> xs[i] > 0
    ensures Sum(xs) > 0
  {
    if |xs| > 1 { SumPositive(xs[..|xs| - 1]); }
  }

  lemma {:induction false} SumUpdate(xs: seq<int>, d: nat, v: int)
    requires d < |xs|
    ensures Sum(xs[d := v]) == Sum(xs) - xs[d] + v
  {
    var last := |xs| - 1;
    if d == last {
      assert xs[d := v][..last] == xs[..last];
    } else {
      SumUpdate(xs[..last], d, v);
      assert xs[d := v][..last] == xs[..last][d := v];
    }
  }

  /** Pointwise at most and equal in total is equal. */
  lemma {:induction false} SumBelow(xs: seq<int>, ys: seq<int>)
    requires |xs| == |ys| && forall i :: 0 <= i < |xs| ==> xs[i] <= ys[i]
    ensures Sum(xs) <= Sum(ys)
    ensures Sum(xs) == Sum(ys) ==> xs == ys
  {
    if xs != [] {
      var last := |xs| - 1;
      SumBelow(xs[..last], ys[..last]);
      assert xs == xs[..last] + [xs[last]] && ys == ys[..last] + [ys[last]];
    }
  }

  lemma {:induction false} SumZero(xs: seq<int>)
    requires forall i :: 0 <= i < |xs| ==> xs[i] == 0
    ensures Sum(xs) == 0
  {
    if xs != [] { SumZero(xs[..|xs| - 1]); }
  }

  lemma {:induction false} SumAppend(xs: seq<real>, ys: seq<real>)
    ensures SumReal(xs + ys) == SumReal(xs) + SumReal(ys)
  {
    if ys == [] {
      assert xs + ys == xs;
    } else {
      SumAppend(xs, ys[..|ys| - 1]);
      assert (xs + ys)[..|xs + ys| - 1] == xs + ys[..|ys| - 1];
    }
  }
}
