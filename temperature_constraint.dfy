/** The thermal constraint (Temperature_constraint/Temperature_constraint.py):
    along the recorded trajectory, the largest stagnation temperature
    `T0 = T + 0.2 * M^2 * T` minus the largest temperature the vehicle withstands.
    Temperature and speed of sound come from the clamped atmosphere (no
    sea-level special case here); any failure writes 10000. */
module TemperatureConstraint {
  import opened Outcomes
  import opened Maths
  import opened Vectors
  import opened Atmosphere

  const FALLBACK: real := 10000.0

  /** The temperatures of a height profile, sample by sample. */
  function TemperatureProfile(atm: Model, h: seq<real>): (t: seq<real>)
    ensures |t| == |h|
  {
    seq(|h|, i requires 0 <= i < |h| => ModifiedTemperature(atm, h[i]))
  }

  /** The speeds of sound of a height profile, sample by sample. */
  function SoundSpeedProfile(atm: Model, h: seq<real>): (a: seq<real>)
    ensures |a| == |h|
  {
    seq(|h|, i requires 0 <= i < |h| => ModifiedSoundSpeed(atm, h[i]))
  }

  /** `numpy.sum([a, b], axis=0)`: the two arrays are stacked into one
      two-row array, which numpy refuses when their lengths differ. */
  function SumRows(a: seq<real>, b: seq<real>): (r: Result<seq<real>>)
    ensures r.Ok? <==> |a| == |b|
    ensures r.Err? ==> r.error == ShapeMismatch
    ensures r.Ok? ==> |r.value| == |a| && forall i :: 0 <= i < |a| ==> r.value[i] == a[i] + b[i]
  {
    if |a| != |b| then Err(ShapeMismatch)
    else Ok(seq(|a|, i requires 0 <= i < |a| => a[i] + b[i]))
  }

  /** `dynamic_temp = 0.2 * numpy.multiply(numpy.multiply(mach, mach), temp_array)`. */
  function DynamicTemperatures(mach: seq<real>, temp: seq<real>): Result<seq<real>>
  {
    match Multiply(Multiply(mach, mach).value, temp)
    case Err(e) => Err(e)
    case Ok(p) => Ok(Scale(0.2, p))
  }

  /** `total_temp` from the two profiles and the velocities: the Mach numbers
      `v / a`, the dynamic temperatures, and their sum with the static ones. */
  function TotalTemperatures(temp: seq<real>, sound: seq<real>, v: seq<real>): Result<seq<real>>
    requires forall j :: 0 <= j < |sound| ==> sound[j] != 0.0
  {
    match Divide(v, sound)
    case Err(e) => Err(e)
    case Ok(mach) =>
      match DynamicTemperatures(mach, temp)
      case Err(e) => Err(e)
      case Ok(dynamicTemp) => SumRows(temp, dynamicTemp)
  }

  /** What the part of the script inside the `try` computes, or the exception it raises. */
  function Constraint(atm: Model, tmax: real, h: seq<real>, v: seq<real>): (r: Result<real>)
    requires PositiveSoundSpeed(atm)
    ensures r.Err? ==> r.error == ShapeMismatch || r.error == EmptyMaximum
    ensures |h| == |v| ==> (r.Ok? <==> |h| > 0)
  {
    var sound := SoundSpeedProfile(atm, h);
    assert forall j :: 0 <= j < |sound| ==> sound[j] != 0.0 by {
      forall j | 0 <= j < |sound| ensures sound[j] != 0.0 {
        ModifiedSoundSpeedPositive(atm, h[j]);
      }
    }
    match TotalTemperatures(TemperatureProfile(atm, h), sound, v)
    case Err(e) => Err(e)
    case Ok(total) => if |total| == 0 then Err(EmptyMaximum) else Ok(Max(Shifted(total, tmax)))
  }

  /** The script, for an optional height list and velocity array (`None` when
      the element is missing or unreadable): the `for altitude in h` loop fills
      both profiles, then the vectorised arithmetic runs; any failure gives 10000. */
  method Run(atm: Model, tmax: real, h: Option<seq<real>>, v: Option<seq<real>>) returns (constraint: real)
    requires PositiveSoundSpeed(atm)
    ensures h.None? || v.None? ==> constraint == FALLBACK
    ensures h.Some? && v.Some? ==>
              constraint == match Constraint(atm, tmax, h.value, v.value)
                            case Ok(c) => c
                            case Err(_) => FALLBACK
  {
    if h.None? || v.None? {
      return FALLBACK;
    }
    var heights := h.value;
    var temp: seq<real> := [];
    var sound: seq<real> := [];
    for k := 0 to |heights|
      invariant temp == TemperatureProfile(atm, heights[..k])
      invariant sound == SoundSpeedProfile(atm, heights[..k])
    {
      temp := temp + [ModifiedTemperature(atm, heights[k])];
      sound := sound + [ModifiedSoundSpeed(atm, heights[k])];
      assert heights[..k + 1] == heights[..k] + [heights[k]];
    }
    assert heights[..|heights|] == heights;
    assert forall j :: 0 <= j < |sound| ==> sound[j] != 0.0 by {
      forall j | 0 <= j < |sound| ensures sound[j] != 0.0 {
        ModifiedSoundSpeedPositive(atm, heights[j]);
      }
    }
    var total := TotalTemperatures(temp, sound, v.value);
    if total.Err? || |total.value| == 0 {
      return FALLBACK;
    }
    constraint := Max(Shifted(total.value, tmax));
  }

  /** The stagnation temperature of one sample: Mach number `M = v / a` and
      `T0 = T + 0.2 * M^2 * T`. */
  function StagnationTemperature(atm: Model, altitude: real, velocity: real): real
    requires PositiveSoundSpeed(atm)
  {
    ModifiedSoundSpeedPositive(atm, altitude);
    var t := ModifiedTemperature(atm, altitude);
    var mach := velocity / ModifiedSoundSpeed(atm, altitude);
    t + 0.2 * (mach * mach * t)
  }

  function StagnationTemperatures(atm: Model, h: seq<real>, v: seq<real>): (t0: seq<real>)
    requires PositiveSoundSpeed(atm) && |h| == |v|
    ensures |t0| == |h|
  {
    seq(|h|, i requires 0 <= i < |h| => StagnationTemperature(atm, h[i], v[i]))
  }

  /** For profiles and velocities of one length, `total_temp` is computed sample by sample. */
  lemma TotalAt(temp: seq<real>, sound: seq<real>, v: seq<real>, i: nat)
    requires |temp| == |sound| == |v| && i < |v|
    requires forall j :: 0 <= j < |sound| ==> sound[j] != 0.0
    ensures TotalTemperatures(temp, sound, v).Ok? && |TotalTemperatures(temp, sound, v).value| == |v|
    ensures TotalTemperatures(temp, sound, v).value[i] == temp[i] + 0.2 * ((v[i] / sound[i]) * (v[i] / sound[i]) * temp[i])
  {
    var mach := Divide(v, sound).value;
    assert |mach| == |v| && mach[i] == v[i] / sound[i];
    MultiplyAt(mach, mach, i);
    var mm := Multiply(mach, mach).value;
    MultiplyAt(mm, temp, i);
    var p := Multiply(mm, temp).value;
    assert DynamicTemperatures(mach, temp) == Ok(Scale(0.2, p));
    assert Scale(0.2, p)[i] == 0.2 * (mach[i] * mach[i] * temp[i]);
  }

  lemma TotalIsSampleWise(atm: Model, h: seq<real>, v: seq<real>)
    requires PositiveSoundSpeed(atm) && |h| == |v|
    ensures forall j :: 0 <= j < |h| ==> SoundSpeedProfile(atm, h)[j] != 0.0
    ensures TotalTemperatures(TemperatureProfile(atm, h), SoundSpeedProfile(atm, h), v)
            == Ok(StagnationTemperatures(atm, h, v))
  {
    var temp := TemperatureProfile(atm, h);
    var sound := SoundSpeedProfile(atm, h);
    forall j | 0 <= j < |h| ensures sound[j] != 0.0 {
      ModifiedSoundSpeedPositive(atm, h[j]);
    }
    var expected := StagnationTemperatures(atm, h, v);
    if |h| == 0 {
      MultiplyEqualLengths([], []);
      assert DynamicTemperatures([], []) == Ok([]);
    } else {
      TotalAt(temp, sound, v, 0);
      var total := TotalTemperatures(temp, sound, v).value;
      forall i | 0 <= i < |h|
        ensures total[i] == expected[i]
      {
        TotalAt(temp, sound, v, i);
      }
      assert total == expected;
    }
  }

  /** For a non-empty trajectory with one velocity per height, the constraint is
      the largest stagnation temperature minus `tmax`, and it is at most 0 exactly
      when no sample's stagnation temperature exceeds `tmax`. */
  lemma Meaning(atm: Model, tmax: real, h: seq<real>, v: seq<real>)
    requires PositiveSoundSpeed(atm) && |h| == |v| > 0
    ensures Constraint(atm, tmax, h, v) == Ok(Max(StagnationTemperatures(atm, h, v)) - tmax)
    ensures (Constraint(atm, tmax, h, v).value <= 0.0)
              == (forall i :: 0 <= i < |h| ==> StagnationTemperature(atm, h[i], v[i]) <= tmax)
  {
    TotalIsSampleWise(atm, h, v);
    MaxShifted(StagnationTemperatures(atm, h, v), tmax);
    MaxAtMost(StagnationTemperatures(atm, h, v), tmax);
  }

  /** An empty trajectory makes `numpy.max` raise, so the script writes 10000. */
  lemma EmptyTrajectory(atm: Model, tmax: real)
    requires PositiveSoundSpeed(atm)
    ensures Constraint(atm, tmax, [], []) == Err(EmptyMaximum)
  {
  }
}
