/** Elementwise numpy arithmetic on one-dimensional arrays, with numpy's
    broadcasting rule for two operands: equal lengths pair up index by index, an
    operand of length 1 is repeated against the other, anything else raises. */
module Vectors {
  import opened Outcomes

  /** The length numpy gives the result of an elementwise operation, if any. */
  function BroadcastLength(m: nat, n: nat): Option<nat>
  {
    if m == n then Some(m)
    else if m == 1 then Some(n)
    else if n == 1 then Some(m)
    else None
  }

  /** Element `i` of an operand under broadcasting. */
  function At(s: seq<real>, i: nat): real
    requires |s| == 1 || i < |s|
  {
    if |s| == 1 then s[0] else s[i]
  }

  /** The operand pairs an elementwise operation combines. */
  function Broadcast(a: seq<real>, b: seq<real>): (r: Result<seq<(real, real)>>)
    ensures r.Err? <==> BroadcastLength(|a|, |b|).None?
    ensures r.Err? ==> r.error == ShapeMismatch
    ensures r.Ok? ==> |r.value| == BroadcastLength(|a|, |b|).value
    ensures r.Ok? ==> (|a| == 1 || |r.value| <= |a|) && (|b| == 1 || |r.value| <= |b|)
    ensures r.Ok? ==> forall i :: 0 <= i < |r.value| ==> r.value[i] == (At(a, i), At(b, i))
  {
    match BroadcastLength(|a|, |b|)
    case None => Err(ShapeMismatch)
    case Some(n) =>
      assert n > 0 ==> (|a| == 1 || n == |a|) && (|b| == 1 || n == |b|);
      Ok(seq(n, i requires 0 <= i < n => (At(a, i), At(b, i))))
  }

  /** `numpy.multiply(a, b)`. */
  function Multiply(a: seq<real>, b: seq<real>): (r: Result<seq<real>>)
    ensures r.Ok? <==> BroadcastLength(|a|, |b|).Some?
    ensures r.Ok? ==> |r.value| == BroadcastLength(|a|, |b|).value
    ensures r.Ok? && |a| == |b| ==> forall i :: 0 <= i < |a| ==> r.value[i] == a[i] * b[i]
  {
    match Broadcast(a, b)
    case Err(e) => Err(e)
    case Ok(p) => Ok(seq(|p|, i requires 0 <= i < |p| => p[i].0 * p[i].1))
  }

  /** `c * a` for a scalar `c`. */
  function Scale(c: real, a: seq<real>): (r: seq<real>)
    ensures |r| == |a|
    ensures forall i :: 0 <= i < |a| ==> r[i] == c * a[i]
  {
    seq(|a|, i requires 0 <= i < |a| => c * a[i])
  }

  /** `numpy.divide(a, b)` for a divisor with no zero element. */
  function Divide(a: seq<real>, b: seq<real>): (r: Result<seq<real>>)
    requires forall j :: 0 <= j < |b| ==> b[j] != 0.0
    ensures r.Ok? <==> BroadcastLength(|a|, |b|).Some?
    ensures r.Ok? ==> |r.value| == BroadcastLength(|a|, |b|).value
    ensures r.Ok? && |a| == |b| ==> forall i :: 0 <= i < |a| ==> r.value[i] == a[i] / b[i]
  {
    match Broadcast(a, b)
    case Err(e) => Err(e)
    case Ok(p) =>
      assert forall i :: 0 <= i < |p| ==> p[i].1 == At(b, i) != 0.0;
      Ok(seq(|p|, i requires 0 <= i < |p| => p[i].0 / p[i].1))
  }

  /** Element `i` of the product of equal-length operands. */
  lemma MultiplyAt(a: seq<real>, b: seq<real>, i: nat)
    requires |a| == |b| && i < |a|
    ensures Multiply(a, b).Ok? && |Multiply(a, b).value| == |a|
    ensures Multiply(a, b).value[i] == a[i] * b[i]
  {
  }

  /** The multiply of equal-length operands always succeeds. */
  lemma MultiplyEqualLengths(a: seq<real>, b: seq<real>)
    requires |a| == |b|
    ensures Multiply(a, b).Ok? && |Multiply(a, b).value| == |a|
  {
  }

  /** Two arrays of different lengths, neither of length 1, cannot be combined. */
  lemma MultiplyMismatch(a: seq<real>, b: seq<real>)
    requires |a| != |b| && |a| != 1 && |b| != 1
    ensures Multiply(a, b) == Err(ShapeMismatch)
  {
  }
}
