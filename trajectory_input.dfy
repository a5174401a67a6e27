/** The input side of the trajectory tool (`read_input` in
    tools/Trajectory/Trajectory.py): the head shape's drag parameter, the
    diameter, and per stage the thrust, the mass flow, and the structural and
    propellant masses aggregated from the stage's mass breakdown. */
module TrajectoryInput {
  import opened Outcomes

  /** The optional elements of one `Stage`. */
  datatype StageDoc = StageDoc(
    thrust: Option<real>, mdot: Option<real>,
    pumps: Option<real>, hydrogen: Option<real>, lox: Option<real>,
    tanks: Option<real>, insulation: Option<real>,
    propellant: Option<real>, casing: Option<real>,
    structure: Option<real>)

  /** The two masses `read_input` appends for one stage. */
  datatype StageMasses = StageMasses(thrust: real, mdot: real, structural: real, propellant: real)

  /** Whether the `# Liquid` branch finds all five of its masses. */
  predicate IsLiquidDoc(d: StageDoc)
  {
    d.pumps.Some? && d.hydrogen.Some? && d.lox.Some? && d.tanks.Some? && d.insulation.Some?
  }

  /** One stage: thrust and mass flow are required; a liquid stage's structure is
      pumps, tanks and insulation and its propellant hydrogen and LOX; otherwise the
      stage must be solid, with casing and propellant; an optional `Structure`
      mass is added to the structural mass. */
  function ReadStage(d: StageDoc): (r: Result<StageMasses>)
    ensures r.Err? ==> r.error == MissingField
    ensures r.Ok? ==> d.thrust.Some? && d.mdot.Some? && r.value.thrust == d.thrust.value && r.value.mdot == d.mdot.value
    ensures d.thrust.Some? && d.mdot.Some? && IsLiquidDoc(d) ==> r.Ok?
  {
    if d.thrust.None? || d.mdot.None? then Err(MissingField)
    else if !IsLiquidDoc(d) && (d.propellant.None? || d.casing.None?) then Err(MissingField)
    else
      var base := if IsLiquidDoc(d) then d.pumps.value + d.tanks.value + d.insulation.value else d.casing.value;
      var structural := if d.structure.Some? then base + d.structure.value else base;
      var propellant := if IsLiquidDoc(d) then d.hydrogen.value + d.lox.value else d.propellant.value;
      Ok(StageMasses(d.thrust.value, d.mdot.value, structural, propellant))
  }

  /** The masses of a stage as the breakdown promises them. */
  lemma StageAggregation(d: StageDoc)
    requires ReadStage(d).Ok?
    ensures ReadStage(d).value.thrust == d.thrust.value && ReadStage(d).value.mdot == d.mdot.value
    ensures IsLiquidDoc(d) ==>
              ReadStage(d).value.structural == d.pumps.value + d.tanks.value + d.insulation.value + GetOr(d.structure, 0.0)
    ensures IsLiquidDoc(d) ==> ReadStage(d).value.propellant == d.hydrogen.value + d.lox.value
    ensures !IsLiquidDoc(d) ==> ReadStage(d).value.structural == d.casing.value + GetOr(d.structure, 0.0)
    ensures !IsLiquidDoc(d) ==> ReadStage(d).value.propellant == d.propellant.value
  {
  }

  /** A stage that is neither complete as liquid nor as solid stops the tool. */
  lemma IncompleteStage(d: StageDoc)
    requires d.thrust.Some? && d.mdot.Some? && !IsLiquidDoc(d) && d.casing.None?
    ensures ReadStage(d) == Err(MissingField)
  {
  }

  /** The four per-stage lists read so far. */
  datatype StageLists = StageLists(thrust: seq<real>, structural: seq<real>, propellant: seq<real>, mdot: seq<real>)

  predicate Aligned(l: StageLists)
  {
    |l.thrust| == |l.structural| == |l.propellant| == |l.mdot|
  }

  /** All stages in order, or the first stage's error. */
  function ReadStages(docs: seq<StageDoc>): (r: Result<StageLists>)
    ensures r.Ok? ==> Aligned(r.value) && |r.value.thrust| == |docs|
  {
    if docs == [] then Ok(StageLists([], [], [], []))
    else
      match ReadStages(docs[..|docs| - 1])
      case Err(e) => Err(e)
      case Ok(l) =>
        match ReadStage(docs[|docs| - 1])
        case Err(e) => Err(e)
        case Ok(s) => Ok(StageLists(l.thrust + [s.thrust], l.structural + [s.structural],
                                    l.propellant + [s.propellant], l.mdot + [s.mdot]))
  }

  /** Once a prefix fails, the whole reading fails with the same error. */
  lemma {:induction false} ReadStagesFailure(docs: seq<StageDoc>, k: nat)
    requires k <= |docs| && ReadStages(docs[..k]).Err?
    ensures ReadStages(docs) == ReadStages(docs[..k])
    decreases |docs| - k
  {
    if k < |docs| {
      assert docs[..k + 1][..k] == docs[..k];
      ReadStagesFailure(docs, k + 1);
    } else {
      assert docs[..k] == docs;
    }
  }

  /** Every stage read contributes exactly one entry to each list, at its own index. */
  lemma {:induction false} ReadStagesAt(docs: seq<StageDoc>, i: nat)
    requires ReadStages(docs).Ok? && i < |docs|
    ensures ReadStage(docs[i]).Ok?
    ensures var l := ReadStages(docs).value;
            var s := ReadStage(docs[i]).value;
            l.thrust[i] == s.thrust && l.structural[i] == s.structural
            && l.propellant[i] == s.propellant && l.mdot[i] == s.mdot
  {
    var prefix := docs[..|docs| - 1];
    if i < |docs| - 1 {
      assert prefix[i] == docs[i];
      ReadStagesAt(prefix, i);
    }
  }

  /** The geometry `read_input` returns: a cone angle for "Cone", a length ratio
      for "Elliptical", neither for any other shape, and the diameter. */
  datatype Geometry = Geometry(coneAngle: real, lengthRatio: real, diameter: real)

  /** The `Geometry` elements: the head shape and the diameter are required, and
      so is the parameter of a conical or an elliptical head. */
  function ReadGeometry(shape: Option<string>, coneAngle: Option<real>, lRatio: Option<real>,
                        diameter: Option<real>): (r: Result<Geometry>)
    ensures r.Err? ==> r.error == MissingField
    ensures r.Err? <==> shape.None? || diameter.None?
                        || (shape.value == "Cone" && coneAngle.None?)
                        || (shape.value == "Elliptical" && lRatio.None?)
    ensures r.Ok? ==> r.value.diameter == diameter.value
    ensures r.Ok? && shape.value == "Cone" ==> r.value == Geometry(coneAngle.value, 0.0, diameter.value)
    ensures r.Ok? && shape.value == "Elliptical" ==> r.value == Geometry(0.0, lRatio.value, diameter.value)
    ensures r.Ok? && shape.value != "Cone" && shape.value != "Elliptical" ==> r.value == Geometry(0.0, 0.0, diameter.value)
  {
    if shape.None? then Err(MissingField)
    else
      var head :=
        if shape.value == "Cone" then
          if coneAngle.None? then Err(MissingField) else Ok((coneAngle.value, 0.0))
        else if shape.value == "Elliptical" then
          if lRatio.None? then Err(MissingField) else Ok((0.0, lRatio.value))
        else Ok((0.0, 0.0));
      if head.Err? || diameter.None? then Err(MissingField)
      else Ok(Geometry(head.value.0, head.value.1, diameter.value))
  }

  /** The `for stage in stages` loop of `read_input`. */
  method ReadInput(docs: seq<StageDoc>) returns (r: Result<StageLists>)
    ensures r == ReadStages(docs)
  {
    var thrust: seq<real> := [];
    var structural: seq<real> := [];
    var propellant: seq<real> := [];
    var mdot: seq<real> := [];
    for k := 0 to |docs|
      invariant ReadStages(docs[..k]) == Ok(StageLists(thrust, structural, propellant, mdot))
    {
      assert docs[..k + 1][..k] == docs[..k];
      var s := ReadStage(docs[k]);
      if s.Err? {
        ReadStagesFailure(docs, k + 1);
        return Err(s.error);
      }
      thrust := thrust + [s.value.thrust];
      mdot := mdot + [s.value.mdot];
      structural := structural + [s.value.structural];
      propellant := propellant + [s.value.propellant];
    }
    assert docs[..|docs|] == docs;
    return Ok(StageLists(thrust, structural, propellant, mdot));
  }
}
