/** The propellant-mass calculator (tools/Mass_propellant_space/Mass_propellant.py):
    the mass of solid propellant, or of liquid hydrogen and liquid oxygen, that a
    stage carries, from its motor counts and its tank volumes. */
module MassPropellant {
  import opened Outcomes

  /** `densities_per_material`, in kg/m^3. */
  const PBAN_DENSITY: real := 1715.0       // SRB propellant
  const HTPB1912_DENSITY: real := 1810.0   // P80 propellant
  const HTPB_APCP_DENSITY: real := 1650.0  // GEM60 propellant
  const LOX_DENSITY: real := 1140.0
  const LH2_DENSITY: real := 71.0

  /** `corrections_per_material` (ullage volume); the solid ones are all 1. */
  const SOLID_CORRECTION: real := 1.0
  const LOX_CORRECTION: real := 0.94

  /** The liquid tank volumes `read_input` passes on: both are read inside one
      `try`, so if either element is missing both fall back to 0. */
  function ReadLiquidVolumes(fuel: Option<real>, oxidizer: Option<real>): (r: (real, real))
    ensures fuel.Some? && oxidizer.Some? ==> r == (fuel.value, oxidizer.value)
    ensures fuel.None? || oxidizer.None? ==> r == (0.0, 0.0)
  {
    if fuel.Some? && oxidizer.Some? then (fuel.value, oxidizer.value) else (0.0, 0.0)
  }

  datatype Masses = Masses(propellant: real, hydrogen: real, lox: real)

  /** `calculate(srb, p80, gem60, volume_tank, volume_h2, volume_lox)`. */
  function Calculate(srb: nat, p80: nat, gem60: nat, volumeTank: real, volumeH2: real, volumeLox: real): (r: Masses)
    ensures srb + p80 + gem60 > 0 ==> r.hydrogen == 0.0 && r.lox == 0.0
    ensures srb + p80 + gem60 == 0 ==> r.propellant == 0.0
    ensures r.lox * LH2_DENSITY * volumeH2 == r.hydrogen * LOX_DENSITY * volumeLox
  {
    if srb > 0 then Masses(PBAN_DENSITY * SOLID_CORRECTION * volumeTank, 0.0, 0.0)
    else if p80 > 0 then Masses(HTPB1912_DENSITY * SOLID_CORRECTION * volumeTank, 0.0, 0.0)
    else if gem60 > 0 then Masses(HTPB_APCP_DENSITY * SOLID_CORRECTION * volumeTank, 0.0, 0.0)
    else Masses(0.0, volumeH2 * LH2_DENSITY * LOX_CORRECTION, volumeLox * LOX_DENSITY * LOX_CORRECTION)
  }

  /** The propellant precedence SRB, P80, GEM60, then liquid; exactly one branch
      contributes, so solid and liquid masses are never both set. */
  lemma Precedence(srb: nat, p80: nat, gem60: nat, vTank: real, vH2: real, vLox: real)
    ensures var r := Calculate(srb, p80, gem60, vTank, vH2, vLox);
      && (srb > 0 ==> r == Masses(1715.0 * vTank, 0.0, 0.0))
      && (srb == 0 && p80 > 0 ==> r == Masses(1810.0 * vTank, 0.0, 0.0))
      && (srb == 0 && p80 == 0 && gem60 > 0 ==> r == Masses(1650.0 * vTank, 0.0, 0.0))
      && (srb + p80 + gem60 == 0 ==> r.propellant == 0.0)
  {
  }

  /** The liquid branch: the hydrogen mass uses the LOX ullage correction too. */
  lemma LiquidMasses(vTank: real, vH2: real, vLox: real)
    ensures Calculate(0, 0, 0, vTank, vH2, vLox) == Masses(0.0, vH2 * 71.0 * 0.94, vLox * 1140.0 * 0.94)
  {
  }

  /** A stage without motors whose tank volumes are missing has no propellant at all. */
  lemma MissingVolumesGiveNothing(vTank: real, fuel: Option<real>, oxidizer: Option<real>)
    requires fuel.None? || oxidizer.None?
    ensures var (vH2, vLox) := ReadLiquidVolumes(fuel, oxidizer);
      Calculate(0, 0, 0, vTank, vH2, vLox) == Masses(0.0, 0.0, 0.0)
  {
  }

  /** Non-negative volumes give non-negative masses. */
  lemma NonNegative(srb: nat, p80: nat, gem60: nat, vTank: real, vH2: real, vLox: real)
    requires vTank >= 0.0 && vH2 >= 0.0 && vLox >= 0.0
    ensures var r := Calculate(srb, p80, gem60, vTank, vH2, vLox);
      r.propellant >= 0.0 && r.hydrogen >= 0.0 && r.lox >= 0.0
  {
  }

  /** Every mass is non-decreasing in every volume. */
  lemma MonotoneInVolumes(srb: nat, p80: nat, gem60: nat,
                          vTank: real, vH2: real, vLox: real, vTank': real, vH2': real, vLox': real)
    requires vTank <= vTank' && vH2 <= vH2' && vLox <= vLox'
    ensures var r := Calculate(srb, p80, gem60, vTank, vH2, vLox);
      var r' := Calculate(srb, p80, gem60, vTank', vH2', vLox');
      r.propellant <= r'.propellant && r.hydrogen <= r'.hydrogen && r.lox <= r'.lox
  {
  }
}
