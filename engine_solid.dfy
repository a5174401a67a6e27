/** The solid-motor calculator (tools/Engine_solid_Space/Engine_solid.py): from
    the number of SRB, P80 and GEM60 motors of a stage, its thrust and mass flow. */
module EngineSolid {

  datatype Motor = Srb | P80 | Gem60

  /** `mdot_dic`, in kg/s per motor. */
  function MassFlowOf(m: Motor): real
  {
    match m
    case Srb => 5290.0
    case P80 => 764.0
    case Gem60 => 463.18
  }

  /** `thrust_per_engine`, in N. */
  function ThrustOf(m: Motor): real
  {
    match m
    case Srb => 12450000.0
    case P80 => 2100000.0
    case Gem60 => 1245000.0
  }

  function CountOf(m: Motor, srb: nat, p80: nat, gem60: nat): nat
  {
    match m
    case Srb => srb
    case P80 => p80
    case Gem60 => gem60
  }

  datatype Propulsion = Propulsion(thrust: real, massFlow: real)

  /** `calculate(srb, p80, gem60)`: thrust adds all motors; the mass flow is set by
      three `if`s in the order SRB, P80, GEM60, so the last type present wins. */
  function Calculate(srb: nat, p80: nat, gem60: nat): (r: Propulsion)
    ensures r.thrust >= 0.0 && r.massFlow >= 0.0
    ensures r.thrust > 0.0 <==> srb + p80 + gem60 > 0
    ensures r.massFlow > 0.0 <==> srb + p80 + gem60 > 0
  {
    var thrust :=
      if srb + p80 + gem60 > 0 then
        srb as real * ThrustOf(Srb) + p80 as real * ThrustOf(P80) + gem60 as real * ThrustOf(Gem60)
      else 0.0;
    var afterSrb := if srb > 0 then MassFlowOf(Srb) * srb as real else 0.0;
    var afterP80 := if p80 > 0 then MassFlowOf(P80) * p80 as real else afterSrb;
    var afterGem60 := if gem60 > 0 then MassFlowOf(Gem60) * gem60 as real else afterP80;
    Propulsion(thrust, afterGem60)
  }

  /** The motor type whose mass flow is reported. */
  function Winner(srb: nat, p80: nat, gem60: nat): Motor
    requires srb + p80 + gem60 > 0
  {
    if gem60 > 0 then Gem60 else if p80 > 0 then P80 else Srb
  }

  lemma ThrustIsSum(srb: nat, p80: nat, gem60: nat)
    ensures Calculate(srb, p80, gem60).thrust
      == 12450000.0 * srb as real + 2100000.0 * p80 as real + 1245000.0 * gem60 as real
  {
  }

  /** GEM60 overrides P80, which overrides SRB. */
  lemma LastTypeWins(srb: nat, p80: nat, gem60: nat)
    requires srb + p80 + gem60 > 0
    ensures var w := Winner(srb, p80, gem60);
      Calculate(srb, p80, gem60).massFlow == MassFlowOf(w) * CountOf(w, srb, p80, gem60) as real
    ensures gem60 > 0 ==> Calculate(srb, p80, gem60).massFlow == 463.18 * gem60 as real
    ensures gem60 == 0 && p80 > 0 ==> Calculate(srb, p80, gem60).massFlow == 764.0 * p80 as real
  {
  }

  /** `n > 0` motors of a single type: `n` times its thrust and mass flow. */
  lemma SingleType(m: Motor, n: nat)
    requires n > 0
    ensures Calculate(CountOf(m, n, 0, 0), CountOf(m, 0, n, 0), CountOf(m, 0, 0, n))
      == Propulsion(n as real * ThrustOf(m), n as real * MassFlowOf(m))
  {
  }

  lemma NoMotors()
    ensures Calculate(0, 0, 0) == Propulsion(0.0, 0.0)
  {
  }

  /** Adding motors of any type never lowers the thrust. */
  lemma ThrustMonotone(srb: nat, p80: nat, gem60: nat, srb': nat, p80': nat, gem60': nat)
    requires srb <= srb' && p80 <= p80' && gem60 <= gem60'
    ensures Calculate(srb, p80, gem60).thrust <= Calculate(srb', p80', gem60').thrust
  {
    ThrustIsSum(srb, p80, gem60);
    ThrustIsSum(srb', p80', gem60');
  }
}
