/** The physical constants of the simulation, in SI units. */
module Physics {
  /** Elementary charge [C]. */
  const E0: real := 1.602176634e-19
  /** Vacuum permittivity [F/m]. */
  const EPS0: real := 8.8541878128e-12
  /** Permittivity of silicon [F/m]. */
  const SI_EPS: real := 11.7 * EPS0
  /** 0 °C in kelvin. */
  const T0C: real := 273.15

  lemma ConstantsPositive()
    ensures E0 > 0.0 && EPS0 > 0.0 && SI_EPS > 0.0
  {
  }
}
