/** The structural constraint (tools/Structural_constraint/Structural_constraint.py):
    along the recorded trajectory, the largest dynamic pressure minus the largest
    pressure the structure withstands.  A positive value means the limit is
    exceeded somewhere. */
module StructuralConstraint {
  import opened Outcomes
  import opened Maths
  import opened Vectors
  import opened Atmosphere

  const SEA_LEVEL_DENSITY: real := 1.225

  /** The density used for one trajectory sample: sea level below ground,
      otherwise the clamped atmosphere (so an altitude of exactly 0 gets the
      80 km density). */
  function SampleDensity(atm: Model, altitude: real): real
  {
    if altitude < 0.0 then SEA_LEVEL_DENSITY else ModifiedDensity(atm, altitude)
  }

  /** The densities of a whole height profile, sample by sample. */
  function DensityProfile(atm: Model, h: seq<real>): (rho: seq<real>)
    ensures |rho| == |h|
  {
    seq(|h|, i requires 0 <= i < |h| => SampleDensity(atm, h[i]))
  }

  /** The `for altitude in h: rho.append(...)` loop. */
  method Densities(atm: Model, h: seq<real>) returns (rho: seq<real>)
    ensures |rho| == |h|
    ensures forall i :: 0 <= i < |h| ==> rho[i] == SampleDensity(atm, h[i])
  {
    rho := [];
    for k := 0 to |h|
      invariant |rho| == k
      invariant forall i :: 0 <= i < k ==> rho[i] == SampleDensity(atm, h[i])
    {
      if h[k] < 0.0 {
        rho := rho + [SEA_LEVEL_DENSITY];
      } else {
        rho := rho + [ModifiedDensity(atm, h[k])];
      }
    }
  }

  /** `qvector = 0.5 * numpy.multiply(numpy.multiply(v, v), rho_array)`. */
  function DynamicPressures(v: seq<real>, rho: seq<real>): Result<seq<real>>
  {
    match Multiply(Multiply(v, v).value, rho)
    case Err(e) => Err(e)
    case Ok(p) => Ok(Scale(0.5, p))
  }

  /** `numpy.max(qvector - qmax)`, failing on an empty vector like `numpy.max`. */
  function Excess(q: seq<real>, limit: real): Result<real>
  {
    if |q| == 0 then Err(EmptyMaximum) else Ok(Max(Shifted(q, limit)))
  }

  /** What `calculate(qmax, h, v)` returns or raises. */
  function Constraint(atm: Model, qmax: real, h: seq<real>, v: seq<real>): (r: Result<real>)
    ensures r.Err? ==> r.error == ShapeMismatch || r.error == EmptyMaximum
    ensures |h| == |v| ==> (r.Ok? <==> |h| > 0)
  {
    match DynamicPressures(v, DensityProfile(atm, h))
    case Err(e) => Err(e)
    case Ok(q) => Excess(q, qmax)
  }

  /** `calculate(qmax, h, v)`. */
  method Calculate(atm: Model, qmax: real, h: seq<real>, v: seq<real>) returns (r: Result<real>)
    ensures r == Constraint(atm, qmax, h, v)
  {
    var rho := Densities(atm, h);
    assert rho == DensityProfile(atm, h);
    var q := DynamicPressures(v, rho);
    if q.Err? {
      return Err(q.error);
    }
    r := Excess(q.value, qmax);
  }

  /** The dynamic pressure `q = v^2 * rho / 2` of one sample. */
  function DynamicPressure(atm: Model, altitude: real, velocity: real): real
  {
    0.5 * (velocity * velocity * SampleDensity(atm, altitude))
  }

  /** The dynamic pressures of a trajectory with one velocity per height. */
  function Pressures(atm: Model, h: seq<real>, v: seq<real>): (q: seq<real>)
    requires |h| == |v|
    ensures |q| == |h|
  {
    seq(|h|, i requires 0 <= i < |h| => DynamicPressure(atm, h[i], v[i]))
  }

  lemma DynamicPressuresAreSampleWise(atm: Model, h: seq<real>, v: seq<real>)
    requires |h| == |v|
    ensures DynamicPressures(v, DensityProfile(atm, h)) == Ok(Pressures(atm, h, v))
  {
    var rho := DensityProfile(atm, h);
    var vv := Multiply(v, v).value;
    var p := Multiply(vv, rho).value;
    var q := Pressures(atm, h, v);
    assert |vv| == |v| && |rho| == |h| && |p| == |h|;
    forall i | 0 <= i < |h|
      ensures Scale(0.5, p)[i] == q[i]
    {
      MultiplyAt(v, v, i);
      MultiplyAt(vv, rho, i);

    }
    assert Scale(0.5, p) == q;
  }

  /** For a non-empty trajectory with one velocity per height, the constraint is
      the largest dynamic pressure minus `qmax`, and it is at most 0 exactly when
      no sample's dynamic pressure exceeds `qmax`. */
  lemma Meaning(atm: Model, qmax: real, h: seq<real>, v: seq<real>)
    requires |h| == |v| > 0
    ensures Constraint(atm, qmax, h, v) == Ok(Max(Pressures(atm, h, v)) - qmax)
    ensures (Constraint(atm, qmax, h, v).value <= 0.0)
              == (forall i :: 0 <= i < |h| ==> DynamicPressure(atm, h[i], v[i]) <= qmax)
  {
    DynamicPressuresAreSampleWise(atm, h, v);
    MaxShifted(Pressures(atm, h, v), qmax);
    MaxAtMost(Pressures(atm, h, v), qmax);
  }

  /** Raising the limit by `d` lowers the constraint by exactly `d`. */
  lemma RaiseLimit(atm: Model, qmax: real, d: real, h: seq<real>, v: seq<real>)
    requires |h| == |v| > 0
    ensures Constraint(atm, qmax + d, h, v).value == Constraint(atm, qmax, h, v).value - d
  {
    Meaning(atm, qmax, h, v);
    Meaning(atm, qmax + d, h, v);
  }

  /** Heights and velocities of different lengths, neither of length 1, raise. */
  lemma LengthMismatch(atm: Model, qmax: real, h: seq<real>, v: seq<real>)
    requires |h| != |v| && |h| != 1 && |v| != 1
    ensures Constraint(atm, qmax, h, v) == Err(ShapeMismatch)
  {
  }

  /** An empty trajectory makes `numpy.max` raise. */
  lemma EmptyTrajectory(atm: Model, qmax: real)
    ensures Constraint(atm, qmax, [], []) == Err(EmptyMaximum)
  {
  }
}
