/** The script variant of the payload constraint (Payload/Payload.py): the same
    difference computed by module-level statements, with no `try`, so a zero
    density ends the script with ZeroDivisionError. */
module PayloadScript {
  import opened Outcomes
  import PayloadConstraint

  /** The `difference` the script writes. */
  function Difference(availableVolume: real, mass: real, density: real): (r: Result<real>)
    ensures r.Err? <==> density == 0.0
  {
    if density == 0.0 then Err(ZeroDivision)
    else
      var volumePayload := mass / density;
      Ok(volumePayload - availableVolume)
  }

  /** The script and the tool's `calculate` agree on every input, failures included. */
  lemma AgreesWithTool(availableVolume: real, mass: real, density: real)
    ensures Difference(availableVolume, mass, density) == PayloadConstraint.Calculate(availableVolume, mass, density)
  {
  }

  /** No payload mass: the constraint is minus the available volume. */
  lemma ZeroMass(availableVolume: real, density: real)
    requires density != 0.0
    ensures Difference(availableVolume, 0.0, density) == Ok(-availableVolume)
  {
  }
}
