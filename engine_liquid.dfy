/** The liquid-engine calculator (tools/Engine_liquid_Space/Engine_liquid.py):
    from the number of VULCAIN, RS68 and S-IVB engines in a stage, the stage's
    total thrust, the nozzle expansion ratio and the propellant mass flow. */
module EngineLiquid {

  datatype Engine = Vulcain | Rs68 | SIvb

  /** `expansion_ratios`. */
  function ExpansionRatioOf(e: Engine): real
  {
    match e
    case Vulcain => 45.0
    case Rs68 => 21.5
    case SIvb => 28.0
  }

  /** `mdot_dic`, in kg/s per engine. */
  function MassFlowOf(e: Engine): real
  {
    match e
    case Vulcain => 188.33
    case Rs68 => 807.39
    case SIvb => 247.0
  }

  /** `thrust_per_engine`, in N. */
  function ThrustOf(e: Engine): real
  {
    match e
    case Vulcain => 800000.0
    case Rs68 => 2891000.0
    case SIvb => 486000.0
  }

  datatype Propulsion = Propulsion(thrust: real, expansionRatio: real, massFlow: real)

  /** `calculate(vulcain, rs68, s_ivb)`.  The thrust adds every engine; the three
      `if`s that set the expansion ratio and the mass flow run in the order
      VULCAIN, RS68, S-IVB, so the last engine type present wins. */
  function Calculate(vulcain: nat, rs68: nat, sIvb: nat): (r: Propulsion)
    ensures r.thrust >= 0.0 && r.massFlow >= 0.0 && r.expansionRatio >= 0.0
    ensures r.thrust > 0.0 <==> vulcain + rs68 + sIvb > 0
    ensures r.massFlow > 0.0 <==> vulcain + rs68 + sIvb > 0
    ensures r.expansionRatio > 0.0 <==> vulcain + rs68 + sIvb > 0
  {
    var thrust :=
      if vulcain + rs68 + sIvb > 0 then
        vulcain as real * ThrustOf(Vulcain) + rs68 as real * ThrustOf(Rs68) + sIvb as real * ThrustOf(SIvb)
      else 0.0;
    var afterVulcain :=
      if vulcain > 0 then (ExpansionRatioOf(Vulcain), MassFlowOf(Vulcain) * vulcain as real) else (0.0, 0.0);
    var afterRs68 :=
      if rs68 > 0 then (ExpansionRatioOf(Rs68), MassFlowOf(Rs68) * rs68 as real) else afterVulcain;
    var afterSIvb :=
      if sIvb > 0 then (ExpansionRatioOf(SIvb), MassFlowOf(SIvb) * sIvb as real) else afterRs68;
    Propulsion(thrust, afterSIvb.0, afterSIvb.1)
  }

  /** The engine type whose entries win the expansion ratio and mass flow. */
  function Winner(vulcain: nat, rs68: nat, sIvb: nat): Engine
    requires vulcain + rs68 + sIvb > 0
  {
    if sIvb > 0 then SIvb else if rs68 > 0 then Rs68 else Vulcain
  }

  function CountOf(e: Engine, vulcain: nat, rs68: nat, sIvb: nat): nat
  {
    match e
    case Vulcain => vulcain
    case Rs68 => rs68
    case SIvb => sIvb
  }

  /** Thrust is the per-engine thrust summed over all engines; the guard on the
      engine count changes nothing, since no engines give 0 either way. */
  lemma ThrustIsSum(vulcain: nat, rs68: nat, sIvb: nat)
    ensures Calculate(vulcain, rs68, sIvb).thrust
      == 800000.0 * vulcain as real + 2891000.0 * rs68 as real + 486000.0 * sIvb as real
  {
  }

  /** S-IVB overrides RS68, which overrides VULCAIN: the expansion ratio is the
      winner's table entry and the mass flow counts only the winner's engines,
      while the thrust counts every engine of the stage. */
  lemma LastTypeWins(vulcain: nat, rs68: nat, sIvb: nat)
    requires vulcain + rs68 + sIvb > 0
    ensures var w := Winner(vulcain, rs68, sIvb);
      && Calculate(vulcain, rs68, sIvb).expansionRatio == ExpansionRatioOf(w)
      && Calculate(vulcain, rs68, sIvb).massFlow == MassFlowOf(w) * CountOf(w, vulcain, rs68, sIvb) as real
    ensures sIvb > 0 ==> Calculate(vulcain, rs68, sIvb).massFlow == 247.0 * sIvb as real
    ensures sIvb == 0 && rs68 > 0 ==> Calculate(vulcain, rs68, sIvb).massFlow == 807.39 * rs68 as real
  {
  }

  /** A stage with `n > 0` engines of a single type gets `n` times that type's
      thrust and mass flow, and that type's expansion ratio (45, 21.5 or 28). */
  lemma SingleType(e: Engine, n: nat)
    requires n > 0
    ensures var r := Calculate(CountOf(e, n, 0, 0), CountOf(e, 0, n, 0), CountOf(e, 0, 0, n));
      r == Propulsion(n as real * ThrustOf(e), ExpansionRatioOf(e), n as real * MassFlowOf(e))
  {
  }

  /** With no liquid engines, all three outputs keep their initial value 0. */
  lemma NoEngines()
    ensures Calculate(0, 0, 0) == Propulsion(0.0, 0.0, 0.0)
  {
  }
}
