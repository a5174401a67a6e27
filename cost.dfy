/** The cost tool (tools/Cost/Cost.py): per stage, the production cost of its
    engines (the TRANSCOST cost-estimating relations, converted to dollars), the
    cost of its propellant and of its structure, summed over all stages. */
module Cost {
  import opened Outcomes
  import opened Maths

  // ---------------------------------------------------------------------------
  // Reading one stage (`read_input`)
  // ---------------------------------------------------------------------------

  /** What one `Stage` element offers: the number of children of its
      `Engines/Solid` and `Engines/Liquid` elements when those exist, and the
      masses found under `Mass`. */
  datatype StageDoc = StageDoc(
    solidChildren: Option<nat>, liquidChildren: Option<nat>,
    casing: Option<real>, propellant: Option<real>,
    tanks: Option<real>, insulation: Option<real>, pumps: Option<real>,
    hydrogen: Option<real>, lox: Option<real>,
    structure: Option<real>)

  /** The six values `read_input` appends for one stage. */
  datatype StageCost = StageCost(nEngines: nat, mEngine: real, mSolid: real, mH2: real, mLox: real, structureMass: real)

  /** Whether the `# Solid` branch of the mass reading succeeds. */
  predicate IsSolidDoc(d: StageDoc)
  {
    d.casing.Some? && d.propellant.Some?
  }

  /** One stage's values, or the IndexError that escapes when the engines have
      neither a Solid nor a Liquid element, or a stage read as liquid lacks one
      of its masses. */
  function ReadStage(d: StageDoc): (r: Result<StageCost>)
    ensures r.Err? ==> r.error == MissingField
    ensures (d.solidChildren.Some? || d.liquidChildren.Some?) && IsSolidDoc(d) ==> r.Ok?
    ensures r.Ok? && IsSolidDoc(d) ==> r.value.mH2 == 0.0 && r.value.mLox == 0.0
    ensures r.Ok? && !IsSolidDoc(d) ==> r.value.mSolid == 0.0
  {
    if d.solidChildren.None? && d.liquidChildren.None? then Err(MissingField)
    else
      var nEngines := if d.solidChildren.Some? then d.solidChildren.value else d.liquidChildren.value;
      var structureMass := GetOr(d.structure, 0.0);
      if IsSolidDoc(d) then
        Ok(StageCost(nEngines, d.casing.value, d.propellant.value, 0.0, 0.0, structureMass))
      else if d.tanks.None? || d.insulation.None? || d.pumps.None? || d.hydrogen.None? || d.lox.None? then
        Err(MissingField)
      else
        Ok(StageCost(nEngines, d.tanks.value + d.insulation.value + d.pumps.value, 0.0,
                     d.hydrogen.value, d.lox.value, structureMass))
  }

  /** The stages' values, in order, or the first stage's error. */
  function ReadStages(docs: seq<StageDoc>): (r: Result<seq<StageCost>>)
    ensures r.Ok? ==> |r.value| == |docs|
  {
    if docs == [] then Ok([])
    else
      match ReadStages(docs[..|docs| - 1])
      case Err(e) => Err(e)
      case Ok(prefix) =>
        match ReadStage(docs[|docs| - 1])
        case Err(e) => Err(e)
        case Ok(s) => Ok(prefix + [s])
  }

  /** `read_input`'s `for stage in stages` loop. */
  method ReadInput(docs: seq<StageDoc>) returns (r: Result<seq<StageCost>>)
    ensures r == ReadStages(docs)
  {
    var stages: seq<StageCost> := [];
    for k := 0 to |docs|
      invariant ReadStages(docs[..k]) == Ok(stages)
    {
      assert docs[..k + 1][..k] == docs[..k];
      var s := ReadStage(docs[k]);
      if s.Err? {
        assert ReadStages(docs[..k + 1]).Err?;
        ReadStagesFailure(docs, k + 1);
        return Err(s.error);
      }
      stages := stages + [s.value];
    }
    assert docs[..|docs|] == docs;
    return Ok(stages);
  }

  /** Once a prefix fails, the whole reading fails with the same error. */
  lemma {:induction false} ReadStagesFailure(docs: seq<StageDoc>, k: nat)
    requires k <= |docs| && ReadStages(docs[..k]).Err?
    ensures ReadStages(docs) == ReadStages(docs[..k])
    decreases |docs| - k
  {
    if k < |docs| {
      assert docs[..k + 1][..k] == docs[..k];
      ReadStagesFailure(docs, k + 1);
    } else {
      assert docs[..k] == docs;
    }
  }

  /** Every stage read contributes its own record, at its own index. */
  lemma {:induction false} ReadStagesAt(docs: seq<StageDoc>, i: nat)
    requires ReadStages(docs).Ok? && i < |docs|
    ensures ReadStage(docs[i]).Ok? && ReadStages(docs).value[i] == ReadStage(docs[i]).value
  {
    var prefix := docs[..|docs| - 1];
    if i < |docs| - 1 {
      assert prefix[i] == docs[i];
      ReadStagesAt(prefix, i);
    }
  }

  /** The reading of a stage: the engine count comes from the Solid element when
      there is one, a solid stage has its casing as engine mass, a liquid stage
      its tanks, insulation and pumps, and a missing structure mass counts as 0. */
  lemma StageAggregation(d: StageDoc)
    requires ReadStage(d).Ok?
    ensures var s := ReadStage(d).value;
            s.nEngines == (if d.solidChildren.Some? then d.solidChildren.value else d.liquidChildren.value)
            && s.structureMass == (if d.structure.Some? then d.structure.value else 0.0)
            && (IsSolidDoc(d) ==> s.mEngine == d.casing.value && s.mSolid == d.propellant.value
                                  && s.mH2 == 0.0 && s.mLox == 0.0)
            && (!IsSolidDoc(d) ==> s.mEngine == d.tanks.value + d.insulation.value + d.pumps.value
                                   && s.mSolid == 0.0 && s.mH2 == d.hydrogen.value && s.mLox == d.lox.value)
  {
  }

  /** A stage that cannot be read as solid and lacks a liquid mass stops the tool. */
  lemma IncompleteLiquidStage(d: StageDoc)
    requires !IsSolidDoc(d) && d.hydrogen.None?
    ensures ReadStage(d) == Err(MissingField)
  {
  }

  // ---------------------------------------------------------------------------
  // The cost (`calculate`)
  // ---------------------------------------------------------------------------

  /** Cost per kg of solid propellant, LOX and LH2, and of structure. */
  const SOLID_FUEL_COST: real := 5.0
  const LOX_COST: real := 0.27
  const LH2_COST: real := 6.1
  const MATERIAL_COST: real := 3.0
  /** Work-years to dollars. */
  const DOLLARS_PER_WORK_YEAR: real := 366518.0

  /** The engine cost of a stage; `x ** y` of a negative float is complex. */
  function EngineCost(m: Transcendentals, s: StageCost): (r: Result<real>)
    ensures r.Err? ==> r.error == ComplexResult
    ensures s.mEngine >= 0.0 && s.mSolid >= 0.0 ==> r.Ok?
    ensures r.Ok? && s.nEngines == 0 ==> r.value == 0.0
  {
    if s.mSolid > 0.0 then
      var base := s.mEngine + s.mSolid;
      if base < 0.0 then Err(ComplexResult)
      else Ok(0.85 * (s.nEngines as real) * 2.3 * m.pow(base, 0.399) * DOLLARS_PER_WORK_YEAR)
    else
      if s.mEngine < 0.0 then Err(ComplexResult)
      else Ok(0.85 * (s.nEngines as real) * 5.16 * m.pow(s.mEngine, 0.45) * DOLLARS_PER_WORK_YEAR)
  }

  /** The propellant cost: hydrogen and oxygen when there is hydrogen, else solid. */
  function FuelCost(s: StageCost): real
  {
    if s.mH2 > 0.0 then s.mH2 * LH2_COST + s.mLox * LOX_COST else s.mSolid * SOLID_FUEL_COST
  }

  /** The propellant cost is never negative for non-negative masses, it ignores
      the solid mass of a stage with hydrogen, and among stages of the same kind
      (with or without hydrogen) it grows with every mass. */
  lemma FuelCostProperties(s: StageCost, s': StageCost)
    requires s.mSolid >= 0.0 && s.mH2 >= 0.0 && s.mLox >= 0.0
    requires s.mSolid <= s'.mSolid && s.mH2 <= s'.mH2 && s.mLox <= s'.mLox
    requires (s.mH2 > 0.0) == (s'.mH2 > 0.0)
    ensures FuelCost(s) >= 0.0
    ensures s.mH2 > 0.0 ==> FuelCost(s.(mSolid := s'.mSolid)) == FuelCost(s)
    ensures FuelCost(s) <= FuelCost(s')
  {
  }

  /** The structure cost, never negative. */
  function StructureCost(s: StageCost): (c: real)
    ensures c >= 0.0
    ensures c == (if s.structureMass > 0.0 then MATERIAL_COST * s.structureMass else 0.0)
  {
    if s.structureMass > 0.0 then MATERIAL_COST * s.structureMass else 0.0
  }

  function StageTotal(m: Transcendentals, s: StageCost): Result<real>
  {
    match EngineCost(m, s)
    case Err(e) => Err(e)
    case Ok(engine) => Ok(engine + FuelCost(s) + StructureCost(s))
  }

  /** `total_cost` after the stages, accumulated in their order. */
  function TotalCost(m: Transcendentals, stages: seq<StageCost>): (r: Result<real>)
    ensures r.Err? ==> r.error == ComplexResult
  {
    if stages == [] then Ok(0.0)
    else
      match TotalCost(m, stages[..|stages| - 1])
      case Err(e) => Err(e)
      case Ok(before) =>
        match StageTotal(m, stages[|stages| - 1])
        case Err(e) => Err(e)
        case Ok(c) => Ok(before + c)
  }

  /** The six parallel lists `calculate` receives, seen as one record per stage. */
  function Zip(nEngines: seq<nat>, mEngine: seq<real>, mSolid: seq<real>, mH2: seq<real>,
               mLox: seq<real>, structureMass: seq<real>): (stages: seq<StageCost>)
    requires |nEngines| <= |mEngine| && |nEngines| <= |mSolid| && |nEngines| <= |mH2|
    requires |nEngines| <= |mLox| && |nEngines| <= |structureMass|
    ensures |stages| == |nEngines|
  {
    seq(|nEngines|, i requires 0 <= i < |nEngines| =>
      StageCost(nEngines[i], mEngine[i], mSolid[i], mH2[i], mLox[i], structureMass[i]))
  }

  /** `calculate(...)`, with its `for index in range(len(n_engines_list))` loop. */
  method Calculate(m: Transcendentals, nEngines: seq<nat>, mEngine: seq<real>, mSolid: seq<real>,
                   mH2: seq<real>, mLox: seq<real>, structureMass: seq<real>) returns (r: Result<real>)
    requires |nEngines| <= |mEngine| && |nEngines| <= |mSolid| && |nEngines| <= |mH2|
    requires |nEngines| <= |mLox| && |nEngines| <= |structureMass|
    ensures r == TotalCost(m, Zip(nEngines, mEngine, mSolid, mH2, mLox, structureMass))
  {
    ghost var stages := Zip(nEngines, mEngine, mSolid, mH2, mLox, structureMass);
    var totalCost := 0.0;
    for index := 0 to |nEngines|
      invariant TotalCost(m, stages[..index]) == Ok(totalCost)
    {
      var s := StageCost(nEngines[index], mEngine[index], mSolid[index], mH2[index], mLox[index],
                         structureMass[index]);
      assert stages[..index + 1][..index] == stages[..index];
      var engineCost := EngineCost(m, s);
      if engineCost.Err? {
        TotalCostFailure(m, stages, index + 1);
        return Err(engineCost.error);
      }
      totalCost := totalCost + engineCost.value + FuelCost(s) + StructureCost(s);
    }
    assert stages[..|nEngines|] == stages;
    return Ok(totalCost);
  }

  /** The total succeeds exactly when every stage's cost can be computed. */
  lemma {:induction false} TotalCostSucceeds(m: Transcendentals, stages: seq<StageCost>)
    ensures TotalCost(m, stages).Ok? <==> forall i :: 0 <= i < |stages| ==> StageTotal(m, stages[i]).Ok?
  {
    if stages != [] {
      var prefix := stages[..|stages| - 1];
      TotalCostSucceeds(m, prefix);
      assert forall i :: 0 <= i < |prefix| ==> prefix[i] == stages[i];
    }
  }

  /** Once a prefix fails, the whole total fails with the same error. */
  lemma {:induction false} TotalCostFailure(m: Transcendentals, stages: seq<StageCost>, k: nat)
    requires k <= |stages| && TotalCost(m, stages[..k]).Err?
    ensures TotalCost(m, stages) == TotalCost(m, stages[..k])
    decreases |stages| - k
  {
    if k < |stages| {
      assert stages[..k + 1][..k] == stages[..k];
      TotalCostFailure(m, stages, k + 1);
    } else {
      assert stages[..k] == stages;
    }
  }

  /** The total of two consecutive groups of stages is the sum of their totals,
      and fails exactly when one of them does. */
  lemma {:induction false} TotalCostAdditive(m: Transcendentals, a: seq<StageCost>, b: seq<StageCost>)
    ensures TotalCost(m, a + b).Ok? <==> TotalCost(m, a).Ok? && TotalCost(m, b).Ok?
    ensures TotalCost(m, a + b).Ok? ==> TotalCost(m, a + b).value == TotalCost(m, a).value + TotalCost(m, b).value
    decreases |b|
  {
    if b == [] {
      assert a + b == a;
    } else {
      var b' := b[..|b| - 1];
      assert (a + b)[..|a + b| - 1] == a + b';
      assert (a + b)[|a + b| - 1] == b[|b| - 1];
      TotalCostAdditive(m, a, b');
    }
  }

  /** No stages cost nothing; a single stage costs its three contributions. */
  lemma SingleStage(m: Transcendentals, s: StageCost)
    ensures TotalCost(m, []) == Ok(0.0)
    ensures TotalCost(m, [s]) == StageTotal(m, s)
  {
    assert [s][..0] == [];
  }

  /** A stage without engines has no engine cost. */
  lemma NoEngines(m: Transcendentals, s: StageCost)
    requires s.nEngines == 0
    requires s.mEngine >= 0.0 && s.mSolid >= 0.0
    ensures EngineCost(m, s) == Ok(0.0)
  {
  }

  /** The choice of cost-estimating relation: the solid one (exponent 0.399 on
      engine plus propellant mass) when there is solid propellant, the liquid one
      (exponent 0.45 on engine mass) otherwise. */
  lemma EngineRelation(m: Transcendentals, s: StageCost)
    requires s.mEngine >= 0.0 && s.mSolid >= 0.0
    ensures EngineCost(m, s).Ok?
    ensures s.mSolid > 0.0 ==>
              EngineCost(m, s).value == 0.85 * 2.3 * DOLLARS_PER_WORK_YEAR * (s.nEngines as real) * m.pow(s.mEngine + s.mSolid, 0.399)
    ensures s.mSolid == 0.0 ==>
              EngineCost(m, s).value == 0.85 * 5.16 * DOLLARS_PER_WORK_YEAR * (s.nEngines as real) * m.pow(s.mEngine, 0.45)
  {
  }

  /** With non-negative masses and a power function that is non-negative on
      non-negative bases, every stage costs something non-negative, and so does the launcher. */
  lemma {:induction false} TotalCostNonNegative(m: Transcendentals, stages: seq<StageCost>)
    requires forall x, y :: x >= 0.0 ==> m.pow(x, y) >= 0.0
    requires forall i :: 0 <= i < |stages| ==>
               stages[i].mEngine >= 0.0 && stages[i].mSolid >= 0.0 && stages[i].mH2 >= 0.0 && stages[i].mLox >= 0.0
    ensures TotalCost(m, stages).Ok? && TotalCost(m, stages).value >= 0.0
  {
    if stages != [] {
      var s := stages[|stages| - 1];
      TotalCostNonNegative(m, stages[..|stages| - 1]);
      assert m.pow(s.mEngine + s.mSolid, 0.399) >= 0.0 && m.pow(s.mEngine, 0.45) >= 0.0;
      assert EngineCost(m, s).value >= 0.0;
    }
  }
}
