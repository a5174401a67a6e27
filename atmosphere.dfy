/** The atmosphere as the tools see it: the `ambiance` standard atmosphere is a
    foreign library and stays uninterpreted (a parameter of the model); what the
    tools add is the clamp `modified_atmosphere`, which consults the library only
    for altitudes strictly between 0 and 80 km and uses the 80 km values for
    every other altitude, including zero and negative ones. */
module Atmosphere {

  /** `Atmosphere(x).density`, `.temperature` and `.speed_of_sound`. */
  datatype Model = Model(
    density: real -> real,
    temperature: real -> real,
    speedOfSound: real -> real)

  /** The altitude at which the clamp freezes the atmosphere, in metres. */
  const CEILING: real := 80000.0

  /** The altitude `modified_atmosphere` actually hands to the library. */
  function Clamp(x: real): (y: real)
    ensures 0.0 < y <= CEILING
    ensures 0.0 < x < CEILING ==> y == x
    ensures x <= 0.0 || x >= CEILING ==> y == CEILING
  {
    if 0.0 < x < CEILING then x else CEILING
  }

  /** `modified_atmosphere(x)`: the clamped density. */
  function ModifiedDensity(atm: Model, x: real): real
  {
    atm.density(Clamp(x))
  }

  /** `modified_temperature(x)`. */
  function ModifiedTemperature(atm: Model, x: real): real
  {
    atm.temperature(Clamp(x))
  }

  /** `modified_sound_speed(x)`. */
  function ModifiedSoundSpeed(atm: Model, x: real): real
  {
    atm.speedOfSound(Clamp(x))
  }

  /** The library's speed of sound is positive wherever the clamp consults it. */
  ghost predicate PositiveSoundSpeed(atm: Model)
  {
    forall x :: 0.0 < x <= CEILING ==> atm.speedOfSound(x) > 0.0
  }

  /** Inside (0, 80 km) the clamped density is the library's; at or below zero and
      at or above 80 km it is the 80 km density (not the sea-level one). */
  lemma ModifiedDensityClamp(atm: Model, x: real)
    ensures 0.0 < x < CEILING ==> ModifiedDensity(atm, x) == atm.density(x)
    ensures x <= 0.0 ==> ModifiedDensity(atm, x) == atm.density(CEILING)
    ensures x >= CEILING ==> ModifiedDensity(atm, x) == atm.density(CEILING)
  {
  }

  /** Temperature and speed of sound are clamped the same way. */
  lemma ModifiedTemperatureClamp(atm: Model, x: real)
    ensures 0.0 < x < CEILING ==>
              ModifiedTemperature(atm, x) == atm.temperature(x) && ModifiedSoundSpeed(atm, x) == atm.speedOfSound(x)
    ensures !(0.0 < x < CEILING) ==>
              ModifiedTemperature(atm, x) == atm.temperature(CEILING) && ModifiedSoundSpeed(atm, x) == atm.speedOfSound(CEILING)
  {
  }

  lemma ModifiedSoundSpeedPositive(atm: Model, x: real)
    requires PositiveSoundSpeed(atm)
    ensures ModifiedSoundSpeed(atm, x) > 0.0
  {
  }
}
