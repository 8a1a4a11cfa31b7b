/** The platform-neutral health metrics the library reads and writes. */
module DataTypes {

  /**
   * `HealthLinkDataType`: the members declared in src/types/dataTypes.ts together
   * with every metric the serializer and the deserializer switch on.
   */
  datatype Metric =
    | BloodGlucose
    | Height
    | Weight
    | LeanBodyMass
    | HeartRate
    | RestingHeartRate
    | BloodPressure
    | OxygenSaturation
    | Steps
    | ActiveEnergyBurned
    | BasalEnergyBurned
}
