/** Arithmetic shared by the calculators: the constant pi, the transcendental
    functions the tools take from `math`/`numpy` (kept uninterpreted: they are
    parameters of the model), sums and the maximum of a sequence of reals. */
module Maths {

  /** `math.pi` / `numpy.pi`, to the digits Python prints. */
  const PI: real := 3.141592653589793

  /** The transcendental functions used by the tools.  Nothing is assumed about
      them beyond what a lemma states in its own `requires`. */
  datatype Transcendentals = Transcendentals(
    tan: real -> real,          // math.tan
    sqrt: real -> real,         // x ** 0.5 for x >= 0
    log: real -> real,          // numpy.log
    pow: (real, real) -> real)  // x ** y for a fractional y

  /** Python's built-in `sum` over a list of floats. */
  function Sum(s: seq<real>): real
  {
    if s == [] then 0.0 else s[0] + Sum(s[1..])
  }

  lemma {:induction false} SumConcat(a: seq<real>, b: seq<real>)
    ensures Sum(a + b) == Sum(a) + Sum(b)
  {
    if a == [] {
      assert a + b == b;
    } else {
      assert (a + b)[1..] == a[1..] + b;
      SumConcat(a[1..], b);
    }
  }

  lemma {:induction false} SumNonNegative(s: seq<real>)
    requires forall i :: 0 <= i < |s| ==> s[i] >= 0.0
    ensures Sum(s) >= 0.0
  {
    if s != [] {
      SumNonNegative(s[1..]);
    }
  }

  /** `sum(s[k:])`: the slice-from-k sum the trajectory tool uses for stage masses. */
  function SuffixSum(s: seq<real>, k: nat): real
    requires k <= |s|
  {
    Sum(s[k..])
  }

  lemma SuffixSumStep(s: seq<real>, k: nat)
    requires k < |s|
    ensures SuffixSum(s, k) == s[k] + SuffixSum(s, k + 1)
  {
    assert s[k..][1..] == s[k + 1..];
  }

  lemma SuffixSumNonNegative(s: seq<real>, k: nat)
    requires k <= |s|
    requires forall i :: 0 <= i < |s| ==> s[i] >= 0.0
    ensures SuffixSum(s, k) >= 0.0
  {
    SumNonNegative(s[k..]);
  }

  /** `numpy.max` of a non-empty array: an upper bound that is attained. */
  function Max(s: seq<real>): (m: real)
    requires |s| > 0
    ensures forall i :: 0 <= i < |s| ==> s[i] <= m
    ensures exists i :: 0 <= i < |s| && s[i] == m
  {
    if |s| == 1 then s[0]
    else
      var rest := Max(s[1..]);
      assert forall i :: 1 <= i < |s| ==> s[i] == s[1..][i - 1];
      if s[0] >= rest then s[0] else rest
  }

  /** The maximum is determined by being an attained upper bound. */
  lemma MaxUnique(s: seq<real>, m: real)
    requires |s| > 0
    requires forall i :: 0 <= i < |s| ==> s[i] <= m
    requires exists i :: 0 <= i < |s| && s[i] == m
    ensures Max(s) == m
  {
  }

  /** `s - c` elementwise, as `numpy.subtract(s, c * numpy.ones(len(s)))`. */
  function Shifted(s: seq<real>, c: real): (r: seq<real>)
    ensures |r| == |s|
    ensures forall i :: 0 <= i < |s| ==> r[i] == s[i] - c
  {
    seq(|s|, i requires 0 <= i < |s| => s[i] - c)
  }

  /** Subtracting a constant before taking the maximum subtracts it from the maximum. */
  lemma MaxShifted(s: seq<real>, c: real)
    requires |s| > 0
    ensures Max(Shifted(s, c)) == Max(s) - c
  {
    var m := Max(s);
    var j :| 0 <= j < |s| && s[j] == m;
    assert Shifted(s, c)[j] == m - c;
    MaxUnique(Shifted(s, c), m - c);
  }

  /** The maximum is at most a bound exactly when every element is. */
  lemma MaxAtMost(s: seq<real>, b: real)
    requires |s| > 0
    ensures Max(s) <= b <==> forall i :: 0 <= i < |s| ==> s[i] <= b
  {
  }
}
