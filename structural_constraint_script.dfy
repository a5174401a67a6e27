/** The script variant of the structural constraint
    (Structural_constraint/Structural_constraint.py): the same per-sample density
    and dynamic-pressure computation as module-level statements, wrapped in a
    catch-all `try` that writes 10000 when anything fails. */
module StructuralConstraintScript {
  import opened Outcomes
  import opened Atmosphere
  import StructuralConstraint

  /** The value written when any step of the computation raises. */
  const FALLBACK: real := 10000.0

  /** The script, for an optional height list and velocity array (`None` when
      the element is missing or `ast.literal_eval` rejects its text). */
  method Run(atm: Model, qmax: real, h: Option<seq<real>>, v: Option<seq<real>>) returns (constraint: real)
    ensures h.None? || v.None? ==> constraint == FALLBACK
    ensures h.Some? && v.Some? ==>
              constraint == match StructuralConstraint.Constraint(atm, qmax, h.value, v.value)
                            case Ok(c) => c
                            case Err(_) => FALLBACK
  {
    if h.None? {
      return FALLBACK;
    }
    var heights := h.value;
    var rho: seq<real> := [];
    for k := 0 to |heights|
      invariant rho == StructuralConstraint.DensityProfile(atm, heights[..k])
    {
      if heights[k] < 0.0 {
        rho := rho + [StructuralConstraint.SEA_LEVEL_DENSITY];
      } else {
        rho := rho + [ModifiedDensity(atm, heights[k])];
      }
      assert heights[..k + 1] == heights[..k] + [heights[k]];
    }
    assert heights[..|heights|] == heights;
    if v.None? {
      return FALLBACK;
    }
    var q := StructuralConstraint.DynamicPressures(v.value, rho);
    if q.Err? {
      return FALLBACK;
    }
    var difference := StructuralConstraint.Excess(q.value, qmax);
    constraint := if difference.Ok? then difference.value else FALLBACK;
  }
}
