/**
 * Writing then reading on Android. Health Connect stores a written measure and
 * hands it back converted to every unit it knows; when the store honours the
 * written measure, reading in the unit the value was written in gives the
 * written value and instant back.
 */
module RoundTrip {
  import opened Wrappers
  import opened Runtime
  import opened DataTypes
  import opened Units
  import WriteTypes
  import Save
  import Results

  /** The stored length agrees with the written `{unit, value}` in the written unit. */
  predicate HeightStoredAs(m: Save.Measure, length: Length) {
    && m.value.Num?
    && (m.unit == "meters" ==> length.inMeters == m.value.n)
    && (m.unit == "feet" ==> length.inFeet == m.value.n)
    && (m.unit == "inches" ==> length.inInches == m.value.n)
  }

  /** The stored mass agrees with the written `{unit, value}` in the written unit. */
  predicate MassStoredAs(m: Save.Measure, mass: Mass) {
    && m.value.Num?
    && (m.unit == "kilograms" ==> mass.inKilograms == m.value.n)
    && (m.unit == "grams" ==> mass.inGrams == m.value.n)
    && (m.unit == "pounds" ==> mass.inPounds == m.value.n)
  }

  /** The stored glucose level agrees with the written `{unit, value}` in the written unit. */
  predicate GlucoseStoredAs(m: Save.Measure, level: Results.BloodGlucoseLevel) {
    && m.value.Num?
    && (m.unit == "milligramsPerDeciliter" ==> level.inMilligramsPerDeciliter == m.value.n)
    && (m.unit == "millimolesPerLiter" ==> level.inMillimolesPerLiter == m.value.n)
  }

  /** The instant the writer puts on a record that has one. */
  function WrittenInstant(options: WriteTypes.WriteOptions, now: string): string {
    options.time.GetOr(options.startDate.GetOr(now))
  }

  /** A height written in any unit reads back unchanged in that unit, at the written instant. */
  lemma HeightRoundTrip(
    options: WriteTypes.WriteOptions, now: string, rec: Results.AndroidRecord, maps: Results.EnergyMaps)
    requires options.value.Some?
    requires rec.body.HeightRecord?
    requires var f := Save.AndroidRecord(Height, options, now).fields;
      HeightStoredAs(f.height, rec.body.height) && rec.time == Some(f.time)
    ensures var r := Results.DataValueDeserializer(Android, Height, Results.ReadOptions(options.unit),
                                                   Results.FromHealthConnect(rec), maps).value;
      r.value == Results.Scalar(Num(options.value.value)) && r.time == Some(WrittenInstant(options, now))
  {
  }

  /** A weight written in any unit reads back unchanged in that unit, at the written instant. */
  lemma WeightRoundTrip(
    options: WriteTypes.WriteOptions, now: string, rec: Results.AndroidRecord, maps: Results.EnergyMaps)
    requires options.value.Some?
    requires rec.body.WeightRecord?
    requires var f := Save.AndroidRecord(Weight, options, now).fields;
      MassStoredAs(f.weight, rec.body.weight) && rec.time == Some(f.time)
    ensures var r := Results.DataValueDeserializer(Android, Weight, Results.ReadOptions(options.unit),
                                                   Results.FromHealthConnect(rec), maps).value;
      r.value == Results.Scalar(Num(options.value.value)) && r.time == Some(WrittenInstant(options, now))
  {
  }

  /** A blood-glucose level written in either unit reads back unchanged in that unit, at the written instant. */
  lemma GlucoseRoundTrip(
    options: WriteTypes.WriteOptions, now: string, rec: Results.AndroidRecord, maps: Results.EnergyMaps)
    requires options.value.Some?
    requires rec.body.BloodGlucoseRecord? && rec.body.level.Some?
    requires var f := Save.AndroidRecord(BloodGlucose, options, now).fields;
      GlucoseStoredAs(f.level, rec.body.level.value) && rec.time == Some(f.time)
    ensures var r := Results.DataValueDeserializer(Android, BloodGlucose, Results.ReadOptions(options.unit),
                                                   Results.FromHealthConnect(rec), maps).value;
      r.value == Results.Scalar(Num(options.value.value)) && r.time == Some(WrittenInstant(options, now))
  {
  }
}
