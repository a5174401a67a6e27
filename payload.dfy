/** The payload-volume constraint (tools/Payload/Payload.py): the payload mass
    found by the trajectory tool, at the given payload density, must fit in the
    volume the head offers.  The constraint is satisfied when negative. */
module PayloadConstraint {
  import opened Outcomes

  /** `calculate(available_volume, mass, density)`: `mass / density` minus the
      available volume; a zero density raises ZeroDivisionError. */
  function Calculate(availableVolume: real, mass: real, density: real): (r: Result<real>)
    ensures r.Err? <==> density == 0.0
    ensures r.Err? ==> r.error == ZeroDivision
  {
    if density == 0.0 then Err(ZeroDivision)
    else Ok(mass / density - availableVolume)
  }

  /** The constraint is negative exactly when the payload volume is smaller than
      the available volume. */
  lemma SatisfiedIffFits(availableVolume: real, mass: real, density: real)
    requires density != 0.0
    ensures Calculate(availableVolume, mass, density).Ok?
    ensures Calculate(availableVolume, mass, density).value < 0.0 <==> mass / density < availableVolume
  {
  }

  /** For a positive density the difference grows with the mass and shrinks as
      the available volume grows. */
  lemma Monotone(availableVolume: real, availableVolume': real, mass: real, mass': real, density: real)
    requires density > 0.0
    requires mass <= mass' && availableVolume' <= availableVolume
    ensures Calculate(availableVolume, mass, density).value <= Calculate(availableVolume', mass', density).value
  {
    assert mass / density <= mass' / density by {
      assert mass' / density - mass / density == (mass' - mass) / density;
    }
  }

  /** Strictly: more mass means a strictly larger difference. */
  lemma StrictlyIncreasingInMass(availableVolume: real, mass: real, mass': real, density: real)
    requires density > 0.0 && mass < mass'
    ensures Calculate(availableVolume, mass, density).value < Calculate(availableVolume, mass', density).value
  {
    assert mass' / density - mass / density == (mass' - mass) / density;
  }
}
