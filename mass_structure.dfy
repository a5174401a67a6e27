/** The structural-mass calculator (tools/Mass_structure/Mass_structure.py): the
    masses of a stage's casing, tanks, tank insulation and turbopumps, and of the
    head structure. */
module MassStructure {
  import opened Outcomes
  import opened Maths

  /** What `read_input` hands to `calculate` for one stage. */
  datatype Inputs = Inputs(
    massPropellant: real, thrust: real, expansionRatio: real,
    oxidizerTankVolume: real, fuelTankVolume: real,
    oxidizerTankSurface: real, fuelTankSurface: real,
    srb: nat, p80: nat, gem60: nat, vulcain: nat, rs68: nat, sIvb: nat,
    headSurface: real)

  datatype Masses = Masses(casing: real, tanks: real, insulation: real, pumps: real, structure: real)

  const CASING_FRACTION: real := 0.135
  const HEAD_THICKNESS: real := 0.005        // m
  const HEAD_MATERIAL_DENSITY: real := 2780.0  // kg/m^3

  predicate IsSolid(i: Inputs)
  {
    i.srb + i.p80 + i.gem60 > 0
  }

  function LiquidEngines(i: Inputs): nat
  {
    i.vulcain + i.rs68 + i.sIvb
  }

  /** `(7.81e-4 * thrust_per_engine + 3.37e-5 * expansion_ratio ** 0.5 + 59) * n_engines`. */
  function PumpsMass(m: Transcendentals, thrust: real, expansionRatio: real, n: nat): real
    requires n > 0
  {
    var thrustPerEngine := thrust / n as real;
    (0.000781 * thrustPerEngine + 0.0000337 * m.sqrt(expansionRatio) + 59.0) * n as real
  }

  /** The head structure, present only when the stage carries a head surface. */
  function StructureMass(headSurface: real): real
  {
    if headSurface > 0.0 then headSurface * HEAD_THICKNESS * HEAD_MATERIAL_DENSITY else 0.0
  }

  /** `calculate(...)`.  A liquid stage without liquid engines divides the thrust
      by zero (`thrust / n_engines`) and raises. */
  function Calculate(m: Transcendentals, i: Inputs): (r: Result<Masses>)
    ensures r.Err? <==> !IsSolid(i) && LiquidEngines(i) == 0
    ensures r.Err? ==> r.error == ZeroDivision
  {
    if IsSolid(i) then
      Ok(Masses(CASING_FRACTION * i.massPropellant, 0.0, 0.0, 0.0, StructureMass(i.headSurface)))
    else if LiquidEngines(i) == 0 then
      Err(ZeroDivision)
    else
      var tanks := 12.158 * i.oxidizerTankVolume + 9.0911 * i.fuelTankVolume;
      var insulation := 1.123 * i.oxidizerTankSurface + 2.88 * i.fuelTankSurface;
      Ok(Masses(0.0, tanks, insulation, PumpsMass(m, i.thrust, i.expansionRatio, LiquidEngines(i)),
                StructureMass(i.headSurface)))
  }

  /** Any solid motor makes the stage solid: casing is 13.5 % of the propellant and
      there are no tanks, insulation or pumps, whatever liquid engines are listed. */
  lemma SolidBranch(m: Transcendentals, i: Inputs)
    requires IsSolid(i)
    ensures Calculate(m, i) == Ok(Masses(0.135 * i.massPropellant, 0.0, 0.0, 0.0, StructureMass(i.headSurface)))
  {
  }

  /** A liquid stage: no casing, tank mass and insulation from the tank volumes and
      surfaces, and pumps sized per engine. */
  lemma LiquidBranch(m: Transcendentals, i: Inputs)
    requires !IsSolid(i) && LiquidEngines(i) > 0
    ensures Calculate(m, i).Ok?
    ensures var r := Calculate(m, i).value;
      && r.casing == 0.0
      && r.tanks == 12.158 * i.oxidizerTankVolume + 9.0911 * i.fuelTankVolume
      && r.insulation == 1.123 * i.oxidizerTankSurface + 2.88 * i.fuelTankSurface
      && r.pumps == 0.000781 * i.thrust + (0.0000337 * m.sqrt(i.expansionRatio) + 59.0) * LiquidEngines(i) as real
  {
    var n := LiquidEngines(i) as real;
    assert (0.000781 * (i.thrust / n) + 0.0000337 * m.sqrt(i.expansionRatio) + 59.0) * n
        == 0.000781 * i.thrust + (0.0000337 * m.sqrt(i.expansionRatio) + 59.0) * n;
  }

  /** The head structure is 0.005 m of 2780 kg/m^3 material over the head surface. */
  lemma HeadStructure(headSurface: real)
    ensures headSurface > 0.0 ==> StructureMass(headSurface) == headSurface * 13.9
    ensures headSurface <= 0.0 ==> StructureMass(headSurface) == 0.0
  {
  }

  /** Non-negative inputs (and a non-negative square root of the expansion ratio)
      give five non-negative masses. */
  lemma NonNegative(m: Transcendentals, i: Inputs)
    requires i.massPropellant >= 0.0 && i.thrust >= 0.0 && i.expansionRatio >= 0.0
    requires i.oxidizerTankVolume >= 0.0 && i.fuelTankVolume >= 0.0
    requires i.oxidizerTankSurface >= 0.0 && i.fuelTankSurface >= 0.0
    requires m.sqrt(i.expansionRatio) >= 0.0
    ensures Calculate(m, i).Ok? ==>
              var r := Calculate(m, i).value;
              r.casing >= 0.0 && r.tanks >= 0.0 && r.insulation >= 0.0 && r.pumps >= 0.0 && r.structure >= 0.0
  {
    if !IsSolid(i) && LiquidEngines(i) > 0 {
      LiquidBranch(m, i);
    }
  }
}
