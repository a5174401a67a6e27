/** The script variant (Engine_solid_Space/Engine_solid.py): the same table
    lookups written as module-level statements.  `len(findall(...))` cannot
    raise, so its `try`/`except` fallbacks to 0 never fire and the counts are the
    numbers of motor elements. */
module EngineSolidScript {
  import EngineSolid

  /** The `thrust` and `mdot` the script writes, for the motor counts it finds. */
  function Outputs(srbCount: nat, p80Count: nat, gem60Count: nat): (r: (real, real))
    ensures r.0 >= 0.0 && r.1 >= 0.0
    ensures r.0 > 0.0 <==> srbCount + p80Count + gem60Count > 0
    ensures r.1 > 0.0 <==> srbCount + p80Count + gem60Count > 0
  {
    var thrust :=
      if srbCount + p80Count + gem60Count > 0 then
        srbCount as real * 12450000.0 + p80Count as real * 2100000.0 + gem60Count as real * 1245000.0
      else 0.0;
    var mdot := if srbCount > 0 then 5290.0 * srbCount as real else 0.0;
    var mdot := if p80Count > 0 then 764.0 * p80Count as real else mdot;
    var mdot := if gem60Count > 0 then 463.18 * gem60Count as real else mdot;
    (thrust, mdot)
  }

  /** For every count triple the script writes what the tool's `calculate` returns. */
  lemma AgreesWithTool(srb: nat, p80: nat, gem60: nat)
    ensures Outputs(srb, p80, gem60).0 == EngineSolid.Calculate(srb, p80, gem60).thrust
    ensures Outputs(srb, p80, gem60).1 == EngineSolid.Calculate(srb, p80, gem60).massFlow
  {
  }

  /** The script's thrust formula and its GEM60 > P80 > SRB mass-flow order. */
  lemma ScriptFormulas(srb: nat, p80: nat, gem60: nat)
    ensures Outputs(srb, p80, gem60).0 == 12450000.0 * srb as real + 2100000.0 * p80 as real + 1245000.0 * gem60 as real
    ensures gem60 > 0 ==> Outputs(srb, p80, gem60).1 == 463.18 * gem60 as real
    ensures gem60 == 0 && p80 > 0 ==> Outputs(srb, p80, gem60).1 == 764.0 * p80 as real
    ensures gem60 == 0 && p80 == 0 && srb > 0 ==> Outputs(srb, p80, gem60).1 == 5290.0 * srb as real
    ensures srb + p80 + gem60 == 0 ==> Outputs(srb, p80, gem60) == (0.0, 0.0)
  {
  }
}
