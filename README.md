# Space launcher benchmark: a Dafny model of the design tools

This project models the computational core of the launcher design tools of the
Space launcher benchmark problem. Each tool reads an XML description of a launch
vehicle, computes one discipline's figures and writes them back. The model covers:

- **Trajectory** (`tools/Trajectory/Trajectory.py`). This is the search for the
  largest payload, in steps of 100 kg, that the vehicle brings to the speed of a
  400 km circular orbit. One trial has two parts:
  - A vertical ascent to 10 km and a gravity turn to 100 km. Each phase integrates
    stage by stage, with at most two stage changes, and is cut at the first sample
    above the phase's altitude.
  - Orbit insertion by the rocket equation, plus up to two impulsive further stages.

  Also modelled: the drag coefficient, the stage-mass budget (suffix sums), the
  trajectory record, and the stage aggregation in `read_input`.
- **Geometry calculator.** It computes:
  - the diameter from the length-to-diameter ratio;
  - the head's surface and enclosed volume (cone, sphere, ellipsoid);
  - each stage's cylinder volume;
  - the split of a liquid stage into LH2 and LOX tanks, with their surfaces.

  It also covers how `read_input` encodes each stage's engines as a repeated name
  (the last kind listed wins) and how `calculate` counts those names back.
- **Structural mass, propellant mass, liquid and solid engines** (the tool and
  the script variant of the solid engine). These are closed-form calculators with
  fixed precedence rules, such as S-IVB over RS68 over VULCAIN, or SRB before
  P80 before GEM60.
- **Cost.** It has three parts:
  - per-stage engine cost (TRANSCOST relations, converted to dollars);
  - propellant cost and structure cost;
  - the total over the stages, and the per-stage reading of `read_input`.
- **Constraint checkers.**
  - Structural constraint: the largest dynamic pressure minus its limit.
  - Temperature constraint: the largest stagnation temperature minus its limit.
  - Payload volume constraint.

  The script variants add a catch-all that writes 10000.

How the model is built:

- All quantities are `real`.
- A Python exception that escapes a tool becomes an `Err` of an `Outcomes.Error`
  kind. A script's catch-all becomes its fallback value.
- numpy's broadcasting of a length-1 operand is modelled (`Vectors`).
- numpy's non-finite results (division of numpy floats by zero, the log of a
  non-positive number) become `Err(NonFinite)`.
- `x ** 0.5` or `x ** y` of a negative Python float gives a complex number. It
  becomes `Err(ComplexResult)`.
- These foreign pieces are **parameters** of the model, not definitions. No
  property about them is assumed, except where a member states it in its own
  `requires`. Lemmas do this, and so do `TemperatureConstraint.Constraint` and
  `TemperatureConstraint.Run`: they require the library's speed of sound to be
  positive on (0, 80 km]. The parameters are:
  - the transcendental functions (`Maths.Transcendentals`: tan, square root,
    log, fractional power);
  - the `ambiance` standard atmosphere (`Atmosphere.Model`);
  - the ODE solver (`Trajectory.Integrator`: a function from one integration
    segment to the samples it returns).

Where the code loops or appends, the model has a method with a loop, proved
against a specification function:

- `StructuralConstraint.Densities`
- `TemperatureConstraint.Run`
- `Geometry.EncodeEngines` and `Geometry.Calculate`
- `Cost.ReadInput` and `Cost.Calculate`
- `TrajectoryInput.ReadInput`
- `Trajectory.RunSearch`

The trajectory trial itself has no loop in the source: it is unrolled nested
`if`s. It is therefore modelled by functions. `Trajectory.RunPhase` recurses
at most twice, which is the unrolled depth.

The payload search `RunSearch` takes the trial of one payload as a function
(`Trajectory.Flight`). `Trajectory.Calculate` instantiates it with the trial of
the vehicle, flown with the reference area as the source writes it.
`Trajectory.CalculateCorrected` flies the same trials with the frontal disc
area (see "## Findings"). The loop is proved against the recursive definition
`Trajectory.Search`. `Trajectory.SearchMeaning` states what that search reports.

## Model

| member | source | states |
|---|---|---|
| Atmosphere.Clamp | tools/Structural_constraint/Structural_constraint.py:10-16 | the altitude handed to the library lies in (0, 80 km]; it is the altitude itself strictly inside (0, 80 km) and 80 km otherwise, zero and negative altitudes included |
| Atmosphere.ModifiedDensityClamp | tools/Structural_constraint/Structural_constraint.py:10-16 | the clamped density is the library's inside (0, 80 km), and the 80 km density (not sea level) at or below 0 and at or above 80 km; the trajectory tool's copy at tools/Trajectory/Trajectory.py:67-74 is the same clamp |
| Atmosphere.ModifiedTemperatureClamp | Temperature_constraint/Temperature_constraint.py:7-19 | temperature and speed of sound are the library's inside (0, 80 km) and the 80 km values for every other altitude, with no sea-level case |
| Atmosphere.ModifiedSoundSpeedPositive | Temperature_constraint/Temperature_constraint.py:14-19 | if the library's speed of sound is positive on (0, 80 km], the clamped one is positive at every altitude, so the Mach division never divides by zero |
| Maths.Max | tools/Structural_constraint/Structural_constraint.py:46 | `numpy.max` of a non-empty array is an upper bound of every element and is attained by one of them |
| Maths.MaxShifted | tools/Structural_constraint/Structural_constraint.py:45-46 | the maximum of `q - qmax` is the maximum of `q` minus `qmax` |
| Maths.MaxAtMost | tools/Structural_constraint/Structural_constraint.py:45-46 | the maximum is at most a bound exactly when every element is |
| Maths.SuffixSumStep | tools/Trajectory/Trajectory.py:111-112 | `sum(s[k:])` is `s[k]` plus `sum(s[k+1:])` |
| Vectors.Multiply | tools/Structural_constraint/Structural_constraint.py:44 | `numpy.multiply` succeeds exactly when the lengths broadcast; for equal lengths it multiplies index by index |
| Vectors.MultiplyMismatch | tools/Structural_constraint/Structural_constraint.py:44 | two lengths that differ, neither being 1, raise a shape error |
| Vectors.Divide | Temperature_constraint/Temperature_constraint.py:41 | `numpy.divide` by a divisor with no zero: defined exactly when the lengths broadcast, and index by index for equal lengths |
| EngineLiquid.ThrustIsSum | tools/Engine_liquid_Space/Engine_liquid.py:39-45 | thrust is 0.8e6, 2.891e6 and 0.486e6 N per VULCAIN, RS68 and S-IVB engine, summed; no engines give 0 |
| EngineLiquid.LastTypeWins | tools/Engine_liquid_Space/Engine_liquid.py:47-57 | S-IVB overrides RS68, which overrides VULCAIN: the expansion ratio is the winner's entry and the mass flow counts only the winner's engines |
| EngineLiquid.SingleType | tools/Engine_liquid_Space/Engine_liquid.py:31-57 | `n > 0` engines of one type give n times its thrust and mass flow and its expansion ratio (45, 21.5 or 28) |
| EngineLiquid.NoEngines | tools/Engine_liquid_Space/Engine_liquid.py:27-29 | no liquid engines: thrust, expansion ratio and mass flow are all 0 |
| EngineSolid.ThrustIsSum | tools/Engine_solid_Space/Engine_solid.py:34-39 | thrust is 12.45e6, 2.1e6 and 1.245e6 N per SRB, P80 and GEM60 motor, summed |
| EngineSolid.LastTypeWins | tools/Engine_solid_Space/Engine_solid.py:40-45 | GEM60 overrides P80, which overrides SRB; the mass flow counts only the winner's motors |
| EngineSolid.SingleType | tools/Engine_solid_Space/Engine_solid.py:30-45 | `n > 0` motors of one type give n times its thrust and n times 5290, 764 or 463.18 kg/s |
| EngineSolid.NoMotors | tools/Engine_solid_Space/Engine_solid.py:27-28 | no motors: thrust and mass flow are 0 |
| EngineSolid.ThrustMonotone | tools/Engine_solid_Space/Engine_solid.py:38-39 | adding motors of any type never lowers the thrust |
| EngineSolidScript.AgreesWithTool | Engine_solid_Space/Engine_solid.py:7-40 | for every count triple the script writes the thrust and mass flow of the tool's `calculate` |
| EngineSolidScript.ScriptFormulas | Engine_solid_Space/Engine_solid.py:29-40 | the script's thrust sum, its GEM60 > P80 > SRB mass-flow order, and all-zero outputs without motors |
| MassPropellant.ReadLiquidVolumes | tools/Mass_propellant_space/Mass_propellant.py:18-23 | both tank volumes are taken when both elements exist; if either is missing both are 0 |
| MassPropellant.Precedence | tools/Mass_propellant_space/Mass_propellant.py:46-54 | SRB, then P80, then GEM60 set the propellant mass at 1715, 1810 or 1650 kg/m^3 times the stage volume and leave both liquid masses 0; the liquid branch leaves the propellant mass 0 |
| MassPropellant.LiquidMasses | tools/Mass_propellant_space/Mass_propellant.py:52-54 | without motors, LH2 mass is `V_h2 * 71 * 0.94` and LOX mass `V_lox * 1140 * 0.94` (the LOX correction applies to both) |
| MassPropellant.MissingVolumesGiveNothing | tools/Mass_propellant_space/Mass_propellant.py:18-23 | a stage without motors whose tank volumes are missing has no propellant mass at all |
| MassPropellant.NonNegative | tools/Mass_propellant_space/Mass_propellant.py:46-54 | non-negative volumes give non-negative masses |
| MassPropellant.MonotoneInVolumes | tools/Mass_propellant_space/Mass_propellant.py:46-54 | every mass is non-decreasing in every volume |
| MassStructure.Calculate | tools/Mass_structure/Mass_structure.py:47-76 | the calculation fails exactly for a stage with neither solid motors nor liquid engines, with a division by zero |
| MassStructure.SolidBranch | tools/Mass_structure/Mass_structure.py:51-55 | any solid motor makes the casing 13.5 % of the propellant mass, with no tanks, insulation or pumps, even if liquid engines are listed |
| MassStructure.LiquidBranch | tools/Mass_structure/Mass_structure.py:56-67 | a liquid stage has no casing; tanks `12.158 V_ox + 9.0911 V_fuel`; insulation `1.123 S_ox + 2.88 S_fuel`; pumps `7.81e-4 T + (3.37e-5 sqrt(eps) + 59) n` |
| MassStructure.HeadStructure | tools/Mass_structure/Mass_structure.py:69-74 | the head structure is 0.005 m of 2780 kg/m^3 material over a positive head surface, else 0 |
| MassStructure.NonNegative | tools/Mass_structure/Mass_structure.py:51-76 | non-negative inputs give five non-negative masses |
| PayloadConstraint.Calculate | tools/Payload/Payload.py:20-26 | the difference fails exactly when the density is zero |
| PayloadConstraint.SatisfiedIffFits | tools/Payload/Payload.py:21-24 | the constraint is negative exactly when `mass / density` is below the available volume |
| PayloadConstraint.Monotone | tools/Payload/Payload.py:23-24 | for a positive density the difference grows with the mass and shrinks as the available volume grows |
| PayloadConstraint.StrictlyIncreasingInMass | tools/Payload/Payload.py:23-24 | more mass gives a strictly larger difference |
| PayloadScript.AgreesWithTool | Payload/Payload.py:7-13 | the script's difference equals the tool's on every input, the zero-density failure included |
| PayloadScript.ZeroMass | Payload/Payload.py:11-13 | with no payload mass the constraint is minus the available volume |
| StructuralConstraint.Densities | tools/Structural_constraint/Structural_constraint.py:36-41 | the loop yields one density per height: 1.225 below ground, else the clamped atmosphere |
| StructuralConstraint.Calculate | tools/Structural_constraint/Structural_constraint.py:32-48 | `calculate` returns the constraint of the specification function `Constraint`, failures included |
| StructuralConstraint.DynamicPressuresAreSampleWise | tools/Structural_constraint/Structural_constraint.py:43-44 | the vectorised `0.5 * v * v * rho` is the dynamic pressure of each sample |
| StructuralConstraint.Meaning | tools/Structural_constraint/Structural_constraint.py:33-46 | for a non-empty trajectory, the constraint is the largest dynamic pressure minus `qmax`, and it is at most 0 exactly when no sample exceeds `qmax` |
| StructuralConstraint.RaiseLimit | tools/Structural_constraint/Structural_constraint.py:45-46 | raising `qmax` by d lowers the constraint by exactly d |
| StructuralConstraint.LengthMismatch | tools/Structural_constraint/Structural_constraint.py:44 | heights and velocities of different lengths, neither of length 1, raise |
| StructuralConstraint.EmptyTrajectory | tools/Structural_constraint/Structural_constraint.py:46 | an empty trajectory makes `numpy.max` raise |
| StructuralConstraintScript.Run | Structural_constraint/Structural_constraint.py:18-36 | the script writes the tool's constraint when it succeeds, and 10000 when an element is missing or any step raises |
| TemperatureConstraint.SumRows | Temperature_constraint/Temperature_constraint.py:45 | `numpy.sum([a, b], axis=0)` is defined exactly for equal lengths and adds index by index |
| TemperatureConstraint.Run | Temperature_constraint/Temperature_constraint.py:27-51 | the script writes the largest stagnation temperature minus `tmax` as computed by `Constraint`, and 10000 when an element is missing or any step raises |
| TemperatureConstraint.TotalAt | Temperature_constraint/Temperature_constraint.py:41-45 | for profiles of one length, total temperature `i` is `T_i + 0.2 (v_i / a_i)^2 T_i` |
| TemperatureConstraint.TotalIsSampleWise | Temperature_constraint/Temperature_constraint.py:33-45 | the vectorised Mach and stagnation-temperature arithmetic is the stagnation temperature of each sample |
| TemperatureConstraint.Meaning | Temperature_constraint/Temperature_constraint.py:43-49 | for a non-empty trajectory the constraint is the largest stagnation temperature minus `tmax`, and it is at most 0 exactly when no sample exceeds `tmax` |
| TemperatureConstraint.EmptyTrajectory | Temperature_constraint/Temperature_constraint.py:49-51 | an empty trajectory makes `numpy.max` raise, the error `Run` turns into 10000 |
| Strings.Repeat | tools/Geometry_calculator/Geometry_calculator.py:39 | `w * n` has n times the length of w |
| Strings.CountRepeat | tools/Geometry_calculator/Geometry_calculator.py:94-96 | `("vulcain" * n).count("vulcain") == n`, for any non-empty word |
| Strings.CountAbsentRepeat | tools/Geometry_calculator/Geometry_calculator.py:94-96 | a word with a character the repeated word lacks is never counted in it |
| Geometry.LastListed | tools/Geometry_calculator/Geometry_calculator.py:37-50 | the last stage up to k that lists an engine: no stage after it lists one |
| Geometry.Carried | tools/Geometry_calculator/Geometry_calculator.py:37-50 | `engine_stage` is unset at stage k exactly when no stage up to k lists an engine |
| Geometry.EncodeEngines | tools/Geometry_calculator/Geometry_calculator.py:35-50 | the loop fails (unbound `engine_stage`) exactly when the first stage lists no engine; otherwise stage i gets the string of the last stage up to i listing one |
| Geometry.LiquidString | tools/Geometry_calculator/Geometry_calculator.py:38-49 | a stage's own string passes the `vulcain + rs68 + s_ivb > 0` test exactly when it lists a liquid engine |
| Geometry.CarriedLiquid | tools/Geometry_calculator/Geometry_calculator.py:94-98 | a stage that lists no engine takes the liquid test of the last stage before it that does |
| Geometry.StageVolumes | tools/Geometry_calculator/Geometry_calculator.py:88-92 | one stage volume per stage length |
| Geometry.Calculate | tools/Geometry_calculator/Geometry_calculator.py:55-120 | `calculate` returns the specification function `Calculation`, failures included |
| Geometry.PropellantSplit | tools/Geometry_calculator/Geometry_calculator.py:98-100 | a liquid stage's two tanks fill the stage, the LOX-to-LH2 mass ratio is 7.937, and a positive stage volume gets a positive LH2 volume |
| Geometry.TankSurfaces | tools/Geometry_calculator/Geometry_calculator.py:101-104 | each tank's surface is `2 pi r^2 + 2 V / r`, a closed cylinder of the stage's radius holding the tank's volume |
| Geometry.CylinderWall | tools/Geometry_calculator/Geometry_calculator.py:101-104 | a tank of height `V / (pi r^2)` has lateral surface `2 V / r` |
| Geometry.DryStage | tools/Geometry_calculator/Geometry_calculator.py:109-117 | a stage without liquid engines gets 0 for both volumes and both surfaces |
| Geometry.StageVolumesSum | tools/Geometry_calculator/Geometry_calculator.py:62-92 | the stage volumes add up to the volume of one cylinder as long as the whole vehicle |
| Geometry.LayoutShape | tools/Geometry_calculator/Geometry_calculator.py:62-120 | a success has one entry per stage in all five lists, `diameter * L_D` is the total length, and the LH2 volume is positive exactly for the liquid stages of positive volume |
| Geometry.ZeroLengthLiquid | tools/Geometry_calculator/Geometry_calculator.py:62-101 | a vehicle of total length zero has radius zero, so once its head is computed a liquid stage divides by zero |
| Geometry.SphereHead | tools/Geometry_calculator/Geometry_calculator.py:72-74 | a sphere head always succeeds, with volume `2/3 pi r^3`, a third of its surface times the radius |
| Geometry.ConeHead | tools/Geometry_calculator/Geometry_calculator.py:67-71 | a cone head fails exactly when `tan` of the angle is 0; otherwise its volume times that `tan` is `pi r^3 / 3` |
| Geometry.EllipseHead | tools/Geometry_calculator/Geometry_calculator.py:75-79 | any other shape is an ellipsoid. A zero length raises and a length below the radius is complex. Otherwise the volume is `2/3 pi l r^2` |
| Geometry.MissingConeAngle | tools/Geometry_calculator/Geometry_calculator.py:25-28 | a missing cone angle defaults to 0, which makes a cone head fail when `tan 0 == 0` |
| Cost.ReadStages | tools/Cost/Cost.py:22-56 | a successful reading has one record per stage |
| Cost.ReadInput | tools/Cost/Cost.py:7-58 | the `read_input` loop returns the specification function `ReadStages`; the first unreadable stage stops it |
| Cost.ReadStagesFailure | tools/Cost/Cost.py:22-56 | once a stage fails to read, the whole reading fails with that error |
| Cost.ReadStagesAt | tools/Cost/Cost.py:22-56 | in a successful reading, record i is the reading of stage i |
| Cost.StageAggregation | tools/Cost/Cost.py:24-50 | the engine count comes from the Solid element, else the Liquid one. A solid stage's engine mass is its casing; a liquid stage's is tanks + insulation + pumps. A missing structure mass counts as 0 |
| Cost.IncompleteLiquidStage | tools/Cost/Cost.py:40-45 | a stage that is not solid and lacks its hydrogen mass stops the tool |
| Cost.FuelCostProperties | tools/Cost/Cost.py:88-92 | the propellant cost of non-negative masses is non-negative; a stage with hydrogen pays nothing for solid propellant; among stages of the same kind (with or without hydrogen) the cost never falls when a mass grows |
| Cost.StructureCost | tools/Cost/Cost.py:94-99 | the structure costs 3 $/kg when its mass is positive, else nothing, and is never negative |
| Cost.Zip | tools/Cost/Cost.py:71-77 | one stage record per entry of the engine-count list |
| Cost.Calculate | tools/Cost/Cost.py:61-103 | the `for index` loop returns the specification function `TotalCost`, failures included |
| Cost.TotalCostFailure | tools/Cost/Cost.py:71-101 | once a stage's engine cost fails, the total fails with that error |
| Cost.TotalCostAdditive | tools/Cost/Cost.py:69-103 | the cost of two consecutive groups of stages is the sum of their costs, and fails exactly when one of them fails |
| Cost.SingleStage | tools/Cost/Cost.py:69-101 | no stages cost 0; one stage costs its engine, propellant and structure costs |
| Cost.NoEngines | tools/Cost/Cost.py:80-86 | a stage without engines has no engine cost |
| Cost.EngineRelation | tools/Cost/Cost.py:79-86 | with solid propellant the engine cost is `0.85 n 2.3 (m_engine + m_solid)^0.399`, otherwise `0.85 n 5.16 m_engine^0.45`, in work-years times 366518 $ |
| Cost.TotalCostNonNegative | tools/Cost/Cost.py:69-103 | non-negative masses give a successful, non-negative total cost |
| TrajectoryInput.StageAggregation | tools/Trajectory/Trajectory.py:35-59 | a liquid stage's structural mass is pumps + tanks + insulation and its propellant hydrogen + LOX. A solid stage's are casing and propellant. An optional structure mass is added |
| TrajectoryInput.IncompleteStage | tools/Trajectory/Trajectory.py:39-51 | a stage that is neither complete as liquid nor has a casing stops the tool |
| TrajectoryInput.ReadStages | tools/Trajectory/Trajectory.py:35-59 | a successful reading gives four lists with one entry per stage |
| TrajectoryInput.ReadStagesFailure | tools/Trajectory/Trajectory.py:35-59 | once a stage fails to read, the whole reading fails with that error |
| TrajectoryInput.ReadStagesAt | tools/Trajectory/Trajectory.py:35-59 | every stage contributes exactly its own entry, at its own index, to each of the four lists |
| TrajectoryInput.ReadGeometry | tools/Trajectory/Trajectory.py:13-26 | fails exactly when the shape, the diameter, or a cone's angle or an ellipse's ratio is missing; otherwise a "Cone" gets only its angle, an "Elliptical" only its ratio, and other shapes neither |
| TrajectoryInput.ReadInput | tools/Trajectory/Trajectory.py:28-61 | the stage loop returns the specification function `ReadStages` |
| Trajectory.ConeDrag | tools/Trajectory/Trajectory.py:89-91 | with a positive cone angle the length ratio has no effect on the drag coefficient, and the cone relation `0.0122 a + 0.162` grows strictly with the angle |
| Trajectory.EllipseDrag | tools/Trajectory/Trajectory.py:92-96 | without a cone angle the ellipse relation gives 0.305 at a length ratio of 10 and falls strictly as the ratio grows; with neither parameter positive the coefficient is 0.42 |
| Trajectory.AreaAsWrittenIsNotDisc | tools/Trajectory/Trajectory.py:98 | the area as written, `pi + d^2/4`, is `pi + 1` for d = 2 where the disc is `pi`, and `pi` for a vehicle of no width |
| Trajectory.ReferenceAreaIsDisc | tools/Trajectory/Trajectory.py:98 | the corrected area is the disc of half the diameter, non-negative, and scales with the square of the diameter |
| Trajectory.StageStartConsistent | tools/Trajectory/Trajectory.py:111-116 | a fresh stage k carries `sum(m_structural[k:]) + sum(mp[k:])`, and its mass less its propellant is what stays on board after it |
| Trajectory.AfterCrossing | tools/Trajectory/Trajectory.py:174-178 | at the crossing, the remaining propellant and the mass both drop by `mdot * t_crossing` |
| Trajectory.FirstAbove | tools/Trajectory/Trajectory.py:121 | `np.where(h > threshold)[0][0]`: the first index above the threshold, every earlier sample at or below it, and none when no sample is above |
| Trajectory.RunPhase | tools/Trajectory/Trajectory.py:104-200 | a phase that succeeds ends on an existing stage at or after its first one, of non-zero mass flow; a phase fails only with a division by zero or an index error |
| Trajectory.EmptyIntegration | tools/Trajectory/Trajectory.py:129-133 | an integration with no samples, when a further stage may start and its mass flow is zero, divides by zero at `mp / mdot` (lines 131 and 200) before it indexes the empty heights (line 133); otherwise it raises the index error |
| Trajectory.NeverCrossingFails | tools/Trajectory/Trajectory.py:121-174 | a phase whose integrations never rise above its altitude fails: `pos[0]` of an empty `np.where` raises once no further stage may start |
| Trajectory.RunPhaseFacts | tools/Trajectory/Trajectory.py:123-171 | a phase makes at most two stage changes, records one segment per stage fired, and ends either on its first burn or on a fresh later stage |
| Trajectory.RunPhaseOrder | tools/Trajectory/Trajectory.py:117-171 | a phase appends its segments in stage order: segment j is the start of what the integrator returns for stage `b.stage + j`, with that stage's thrust and mass flow, the phase's angles, and the trial's payload, area and drag coefficient |
| Trajectory.RunPhaseBelow | tools/Trajectory/Trajectory.py:155-171 | every height a phase records is at most its altitude (10 km, 100 km), and the crossing sample lies above it |
| Trajectory.ConsBelow | tools/Trajectory/Trajectory.py:123-125 | prepending a whole segment below the altitude keeps every recorded height below it |
| Trajectory.RunPhaseConsistent | tools/Trajectory/Trajectory.py:174-213 | a phase keeps the burning stage's mass and remaining propellant in step |
| Trajectory.ExtraStageDenominator | tools/Trajectory/Trajectory.py:251-258 | an impulsive further stage divides by what stays on board once that stage is empty, payload included |
| Trajectory.ExtraStagesLast | tools/Trajectory/Trajectory.py:251 | without a further stage there is no further velocity gain |
| Trajectory.InsertionDenominator | tools/Trajectory/Trajectory.py:244-248 | the rocket equation's final mass is what stays on board once the burning stage is empty, payload included |
| Trajectory.TrialBounds | tools/Trajectory/Trajectory.py:104-241 | in a successful trial every phase-1 height is at most 10 km and every phase-2 height at most 100 km, and each phase records between 1 and the number of stages segments |
| Trajectory.BurnWindow | tools/Trajectory/Trajectory.py:81-116 | with non-negative masses, positive mass flow and non-negative payload, the mass `m0 + mpay - mdot t` stays positive on the whole window `[0, mp / mdot - 5]` |
| Trajectory.SecondPhaseConsistent | tools/Trajectory/Trajectory.py:173-187 | the gravity turn starts from a consistent burn, so `BurnWindow` applies to it too |
| Trajectory.FlattenBelow | tools/Trajectory/Trajectory.py:279-282 | flattening the segments keeps every height below the bound |
| Trajectory.Heights | tools/Trajectory/Trajectory.py:279-283 | `h1 + h2` has one height per recorded sample |
| Trajectory.Velocities | tools/Trajectory/Trajectory.py:281-284 | `v1 + v2` has one velocity per recorded sample |
| Trajectory.RecordBelow | tools/Trajectory/Trajectory.py:279-284 | a record whose samples lie below the bound reports heights below it, and as many heights as velocities |
| Trajectory.TrajectoryAligned | tools/Trajectory/Trajectory.py:279-284 | the reported height and velocity lists of a trial have equal length, and no height exceeds 100 km |
| Trajectory.StopUnique | tools/Trajectory/Trajectory.py:276-286 | the search stops at one trial at most: the first that runs and does not reach orbit |
| Trajectory.ReportedPayload | tools/Trajectory/Trajectory.py:276-288 | when the search stops at trial k >= 2, the payload is `100 (k - 1)`: its own trial reached orbit, the next 100 kg did not, and the heights are those of its trial |
| Trajectory.SearchFromMeaning | tools/Trajectory/Trajectory.py:102-300 | from any point of a run of feasible trials, the search ends in exactly one of three ways: it reports the trial where it stops, it fails with the error of the first trial that does not run, or it exhausts its budget with every trial having reached orbit |
| Trajectory.SearchMeaning | tools/Trajectory/Trajectory.py:84-302 | the same from a payload of 0. Success reports the first failing trial k as `max(100 k - 100, 0)` with that trial's record as the source chooses. An error is the first non-running trial's error. The bound error means every trial within it reached orbit |
| Trajectory.RunSearch | tools/Trajectory/Trajectory.py:84-302 | the `while feasible == 1` loop and what follows it return the recursive search `Search` |
| Trajectory.Calculate | tools/Trajectory/Trajectory.py:64-302 | `calculate` as written is the search over the vehicle's trials flown with the reference area `pi + diameter ** 2 / 4` of line 98 |
| Trajectory.CalculateCorrected | tools/Trajectory/Trajectory.py:64-302 | the same search flown with the frontal disc area `pi d^2 / 4` |
| EngineLiquid.Calculate | tools/Engine_liquid_Space/Engine_liquid.py:24-59 | thrust, mass flow and expansion ratio are never negative, and each is positive exactly when some liquid engine is listed |
| EngineSolid.Calculate | tools/Engine_solid_Space/Engine_solid.py:24-47 | thrust and mass flow are never negative, and each is positive exactly when some solid motor is listed |
| EngineSolidScript.Outputs | Engine_solid_Space/Engine_solid.py:7-40 | the script's thrust and mass flow are never negative, and each is positive exactly when some motor is listed |
| MassPropellant.Calculate | tools/Mass_propellant_space/Mass_propellant.py:28-56 | a stage with motors has no liquid masses, one without has no solid propellant, and the LOX and LH2 masses stand in the ratio of their densities times their tank volumes |
| Geometry.StageEngineString | tools/Geometry_calculator/Geometry_calculator.py:37-50 | a stage gets no string exactly when it lists no engine, and a non-empty one otherwise |
| Geometry.HeadOf | tools/Geometry_calculator/Geometry_calculator.py:66-79 | the head fails only by a division by zero, a complex power or a non-finite value, and a sphere head never fails |
| Geometry.Calculation | tools/Geometry_calculator/Geometry_calculator.py:55-120 | the calculation fails only with those three kinds of error, and never for a sphere head with a non-zero `L_D` and a non-zero total length |
| Strings.Count | tools/Geometry_calculator/Geometry_calculator.py:94-96 | `str.count` of a non-empty word is at most the length of the string, and 0 when the word is longer than the string |
| Cost.ReadStage | tools/Cost/Cost.py:22-56 | reading a stage fails only on a missing field, succeeds for a solid stage with an engine count, and gives a solid stage no liquid masses and a liquid stage no solid mass |
| Cost.EngineCost | tools/Cost/Cost.py:79-86 | the engine cost fails only with a complex power, succeeds for non-negative masses, and is 0 without engines |
| Cost.TotalCost | tools/Cost/Cost.py:69-103 | the total cost fails only with a complex power |
| Cost.TotalCostSucceeds | tools/Cost/Cost.py:69-103 | the total cost succeeds exactly when every stage's cost can be computed |
| StructuralConstraint.Constraint | tools/Structural_constraint/Structural_constraint.py:32-48 | the constraint fails only with a shape error or the maximum of nothing, and for profiles of one length it succeeds exactly when they are non-empty |
| TemperatureConstraint.Constraint | Temperature_constraint/Temperature_constraint.py:27-49 | the same two kinds of failure, and the same success condition, for the stagnation temperature |
| PayloadScript.Difference | Payload/Payload.py:7-13 | the script's difference raises exactly when the density is zero |
| TrajectoryInput.ReadStage | tools/Trajectory/Trajectory.py:35-59 | reading a stage fails only on a missing field; a success carries the stage's thrust and mass flow, and a complete liquid stage with both always succeeds |
| Trajectory.ExtraStages | tools/Trajectory/Trajectory.py:251-268 | the impulsive further stages fail only by a division by zero |
| Trajectory.InsertionVelocity | tools/Trajectory/Trajectory.py:243-249 | the rocket equation fails only by a non-finite log or a division by zero, and only by a division by zero when the masses before and after the burn are positive |
| Trajectory.CircularOrbitSpeed | tools/Trajectory/Trajectory.py:270-274 | when `sqrt` is the square root, the orbit threshold is positive and is the speed at which gravity `mu / r^2` equals the centripetal acceleration `v^2 / r` at 400 km |
| Trajectory.FeasibleIffFaster | tools/Trajectory/Trajectory.py:270-278 | when `sqrt` is the square root, a trial with a non-negative final velocity passes `v_final > v_orbit` exactly when its squared velocity exceeds `mu / (r_earth + 400 km)` |
| Trajectory.Trial | tools/Trajectory/Trajectory.py:102-286 | a vehicle without stages raises an index error, and a trial fails only by a division by zero, an index error or a non-finite value |
| Trajectory.TrialNeverCrossing | tools/Trajectory/Trajectory.py:117-244 | an integrator that never rises above 100 km makes every trial fail, never crossing 10 km or never crossing 100 km, with a division by zero or an index error |
| Trajectory.SearchNeverCrossing | tools/Trajectory/Trajectory.py:102-302 | with such an integrator the search fails at once with the error of the trial of payload 0 |
| Trajectory.Search | tools/Trajectory/Trajectory.py:84-302 | a reported payload is a multiple of 100 kg below 100 times the trial budget |
| Trajectory.FlightsBoundMeaning | tools/Trajectory/Trajectory.py:102-302 | the vehicle's trials never produce the bound error themselves, so a search that ends with it had every trial within the budget reach orbit |

## Left out

- XML reading and writing (`etree` and `ET` parsing, XPath queries, `write_output`, `run`). The read results are records of optional fields. A missing element becomes `None`, and a failing `[0]` or `.text` becomes `Err(MissingField)`. A number that fails to parse is not modelled.
- The ODE solver `solve_ivp` and the equation of motion with its `cos`/`sin`. They are the parameter `Trajectory.Integrator`, which receives everything the equation depends on (`Trajectory.Segment`). The clamp `modified_atmosphere` of the trajectory tool lives inside that right-hand side, so it is part of that parameter and is not modelled there. `Atmosphere.Clamp` models the identical clamp of the two constraint tools.
- The `ambiance` atmosphere and the transcendental functions are parameters, because they are foreign libraries.
- IEEE-754 rounding. Everything is exact real arithmetic, so no claim of bit-exact agreement is made. numpy's `inf` and `nan` are `Err(NonFinite)` rather than values that flow on. A complex power is `Err(ComplexResult)` rather than a complex number that flows on.
- tools/Reliability/Reliability.py is not part of this model: it stops with a NameError on an undefined name and computes nothing it uses.
- Trajectory.RunSearch: the source's loop has no bound. The model runs at most `maxTrials` trials and then returns `Err(SearchBoundExceeded)`, which `SearchMeaning` states means every trial reached orbit.
- Trajectory.Calculate: requires the four stage lists to have equal lengths, which is how `read_input` builds them. Lists of different lengths are not modelled.
- Geometry.Calculate: requires at least as many engine strings as stage lengths, which is how `read_input` builds them. The IndexError of shorter lists is not modelled.
- Cost.Calculate: requires each of the other five lists to be at least as long as the engine-count list, which is how `read_input` builds them.
- TemperatureConstraint.Run: requires the library's speed of sound to be positive on (0, 80 km], so the Mach division is defined. A zero speed of sound, which numpy would turn into `inf`, is not modelled.
- MassStructure.Calculate: the square root of the expansion ratio is a parameter. The complex result of a negative ratio is not modelled.
- The temperature script's ragged `numpy.sum` of two arrays of different lengths is an error in the model (as it is in current numpy). Older numpy would build an object array instead.
- A trial whose integration never crosses its altitude raises IndexError in the code. The model keeps that error, or the division by zero a zero mass flow raises first (`Trajectory.NeverCrossingFails`, `Trajectory.SearchNeverCrossing`). It does not treat the trial as infeasible and stop the search.
- Trajectory.InsertionVelocity: a zero denominator in the rocket equation's log gives `+inf` in numpy, since `t_0` comes from `linspace`. That final velocity counts as feasible there and the search goes on, while `nan` or `-inf` make the trial infeasible and stop it. The model instead ends the search (`Trajectory.Search`) with `Err(NonFinite)` in all of those cases.
- The fallback at tools/Trajectory/Trajectory.py:298-300 is unreachable: a trial that gets that far always has a phase-2 record. It needs no separate model.

## Findings

| source | as written | input that shows it | evidently intended | confidence | as-written member | corrected member |
|---|---|---|---|---|---|---|
| tools/Trajectory/Trajectory.py:98 | the reference area in the drag term is `s = np.pi + diameter ** 2 / 4` | diameter 2 m gives `pi + 1` instead of the frontal disc `pi`; a diameter of 0 gives `pi` instead of 0 | `s = np.pi * diameter ** 2 / 4`, the frontal disc area | not executed | Trajectory.Calculate, Trajectory.AreaAsWrittenIsNotDisc | Trajectory.CalculateCorrected, Trajectory.ReferenceAreaIsDisc |
