/**
 * The unit enumerations callers pass as `unit`, the measurement objects the
 * Android store reports, and the two selectors that pick the field of a
 * height or weight reading matching a requested unit.
 */
module Units {
  import opened Wrappers

  // BloodGlucoseUnit
  const MgPerdL: string := "mgPerdL"
  const MmolPerL: string := "mmolPerL"

  // WeightUnit
  const Pounds: string := "pounds"
  const Kg: string := "kg"
  const Gram: string := "gram"

  // HeighUnit
  const Inch: string := "inch"
  const Cm: string := "cm"
  const Meter: string := "meter"
  const Foot: string := "foot"

  // EnergyUnit (only the two members the serializer compares against)
  const Calories: string := "calories"
  const Joules: string := "joules"

  /** A length as the Android store reports it, in each of the units the library reads. */
  datatype Length = Length(inMeters: real, inFeet: real, inInches: real)

  /** A mass as the Android store reports it. */
  datatype Mass = Mass(inKilograms: real, inGrams: real, inPounds: real)

  /** An amount of energy as the Android store reports it. */
  datatype Energy = Energy(inCalories: real, inJoules: real, inKilojoules: real)

  /** A power (basal metabolic rate) as the Android store reports it. */
  datatype Power = Power(inWatts: real, inKilocaloriesPerDay: real)

  /**
   * `androidHeightUnitMap`: the height in the requested unit. Centimetres are
   * derived from metres; every other unit, and no unit at all, reads a field.
   */
  function AndroidHeightUnitMap(height: Length, unit: Option<string>): (r: real)
    ensures unit == Some(Cm) ==> r == height.inMeters * 100.0
    ensures unit == Some(Meter) ==> r == height.inMeters
    ensures unit == Some(Foot) ==> r == height.inFeet
    ensures unit !in {Some(Cm), Some(Meter), Some(Foot)} ==> r == height.inInches
  {
    match unit
    case Some(u) =>
      if u == Cm then height.inMeters * 100.0
      else if u == Meter then height.inMeters
      else if u == Foot then height.inFeet
      else if u == Inch then height.inInches
      else height.inInches
    case None => height.inInches
  }

  /**
   * `androidWeightUnitMap`: the weight in the requested unit, pounds when the
   * unit is missing or not a weight unit.
   */
  function AndroidWeightUnitMap(weight: Mass, unit: Option<string>): (r: real)
    ensures unit == Some(Kg) ==> r == weight.inKilograms
    ensures unit == Some(Gram) ==> r == weight.inGrams
    ensures unit !in {Some(Kg), Some(Gram)} ==> r == weight.inPounds
  {
    match unit
    case Some(u) =>
      if u == Kg then weight.inKilograms
      else if u == Gram then weight.inGrams
      else if u == Pounds then weight.inPounds
      else weight.inPounds
    case None => weight.inPounds
  }

  /** Both selectors are total and always answer with one of the reading's own values. */
  lemma SelectorsAreTotal(height: Length, weight: Mass, unit: Option<string>)
    ensures AndroidHeightUnitMap(height, unit) in {height.inMeters * 100.0, height.inMeters, height.inFeet, height.inInches}
    ensures AndroidWeightUnitMap(weight, unit) in {weight.inKilograms, weight.inGrams, weight.inPounds}
  {
  }
}
