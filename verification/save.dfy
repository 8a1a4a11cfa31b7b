/**
 * The write serializer: turns a platform-neutral write request into the value
 * HealthKit expects on iOS or the typed record Health Connect expects on
 * Android, or `null` when there is nothing to write.
 */
module Save {
  import opened Wrappers
  import opened Runtime
  import opened DataTypes
  import opened Units
  import WriteTypes

  /** A `{unit, value}` pair inside a Health Connect record. */
  datatype Measure = Measure(unit: string, value: JsValue)

  /** One element of a heart-rate record's `samples` array. */
  datatype WrittenSample = WrittenSample(time: string, beatsPerMinute: JsValue)

  /** The metric-specific fields of a Health Connect record. */
  datatype RecordFields =
    | GlucoseFields(relationToMeal: JsValue, mealType: JsValue, specimenSource: JsValue, time: string, level: Measure)
    | StepsFields(count: real)
    | WeightFields(time: string, weight: Measure)
    | HeightFields(time: string, height: Measure)
    | HeartRateFields(samples: seq<WrittenSample>)
    | ActiveEnergyFields(energy: Measure)
    | BasalFields(time: string, basalMetabolicRate: Measure)

  /** What the serializer produces: HealthKit value options, or a Health Connect record. */
  datatype Serialized =
    | HealthValueOptions(unit: Option<string>, value: real)
    | HealthConnectRecord(recordType: string, startTime: string, endTime: string, fields: RecordFields)

  /** The metrics the Android branch knows how to write. */
  predicate AndroidWritable(m: Metric) {
    m in {BloodGlucose, Steps, Weight, Height, HeartRate, ActiveEnergyBurned, BasalEnergyBurned}
  }

  /** The Health Connect record type each writable metric is stored as. */
  function RecordTypeFor(m: Metric): string
    requires AndroidWritable(m)
  {
    match m
    case BloodGlucose => "BloodGlucose"
    case Steps => "Steps"
    case Weight => "Weight"
    case Height => "Height"
    case HeartRate => "HeartRate"
    case ActiveEnergyBurned => "ActiveCaloriesBurned"
    case BasalEnergyBurned => "BasalMetabolicRate"
  }

  /** Which shape of fields a record of the metric has. */
  predicate ShapedFor(m: Metric, f: RecordFields) {
    match m
    case BloodGlucose => f.GlucoseFields?
    case Steps => f.StepsFields?
    case Weight => f.WeightFields?
    case Height => f.HeightFields?
    case HeartRate => f.HeartRateFields?
    case ActiveEnergyBurned => f.ActiveEnergyFields?
    case BasalEnergyBurned => f.BasalFields?
    case _ => false
  }

  /** The instant a record is about, for the shapes that carry one (heart rate: its first sample's). */
  function InstantOf(f: RecordFields): Option<string> {
    match f
    case GlucoseFields(_, _, _, t, _) => Some(t)
    case WeightFields(t, _) => Some(t)
    case HeightFields(t, _) => Some(t)
    case HeartRateFields(samples) => if |samples| > 0 then Some(samples[0].time) else None
    case BasalFields(t, _) => Some(t)
    case StepsFields(_) => None
    case ActiveEnergyFields(_) => None
  }

  /** How many of HealthKit's native units (grams, metres) one unit of the request is worth. */
  function IosNativeFactor(unit: string): real {
    if unit == Kg then 1000.0 else if unit == Cm then 0.01 else 1.0
  }

  /**
   * A metadata field read by destructuring with a default of 0: the default
   * applies when the field, or the whole metadata object, is undefined.
   */
  function FieldOrZero(metadata: Option<map<string, JsValue>>, key: string): JsValue {
    var v := Lookup(metadata, key);
    if v == Undefined then Num(0.0) else v
  }

  /**
   * `serializeWriteOptions`. `now` is the clock reading the source takes with
   * `new Date().toISOString()`; `iosUnitOf` stands for the table
   * `unitToIosUnitMap`, whose entries are not part of this model.
   */
  function SerializeWriteOptions(
    platform: Platform, dataType: Metric, options: WriteTypes.WriteOptions,
    now: string, iosUnitOf: string -> Option<string>): (r: Option<Serialized>)
    ensures r.None? <==>
      || platform == Other
      || (platform == IOS && !Truthy(options.unit))
      || (platform == Android && !AndroidWritable(dataType))
    ensures platform == IOS && r.Some? ==>
      r.value == HealthValueOptions(iosUnitOf(options.unit.value),
                                    options.value.GetOr(0.0) * IosNativeFactor(options.unit.value))
    ensures platform == Android && r.Some? ==>
      && r.value.HealthConnectRecord?
      && r.value.recordType == RecordTypeFor(dataType)
      && r.value.startTime == options.startDate.GetOr(now)
      && r.value.endTime == options.endDate.GetOr(now)
      && ShapedFor(dataType, r.value.fields)
      && (InstantOf(r.value.fields).Some? <==> dataType !in {Steps, ActiveEnergyBurned})
      && (InstantOf(r.value.fields).Some? ==>
            InstantOf(r.value.fields).value == options.time.GetOr(r.value.startTime))
  {
    match platform
    case IOS =>
      if !Truthy(options.unit) then None
      else
        var value := options.value.GetOr(0.0);
        var unit := options.unit.value;
        Some(HealthValueOptions(
          iosUnitOf(unit),
          if unit == Kg then value * 1000.0 else if unit == Cm then value / 100.0 else value))
    case Android =>
      var startTime := options.startDate.GetOr(now);
      var endTime := options.endDate.GetOr(now);
      var time := options.time.GetOr(startTime);
      var value := OfNumber(options.value);
      (match dataType
      case BloodGlucose =>
        var unit := if options.unit == Some(MgPerdL) then "milligramsPerDeciliter" else "millimolesPerLiter";
        Some(HealthConnectRecord("BloodGlucose", startTime, endTime,
          GlucoseFields(FieldOrZero(options.metadata, "relationToMeal"),
                        FieldOrZero(options.metadata, "mealType"),
                        FieldOrZero(options.metadata, "specimenSource"),
                        time, Measure(unit, value))))
      case Steps =>
        Some(HealthConnectRecord("Steps", startTime, endTime, StepsFields(options.value.GetOr(0.0))))
      case Weight =>
        var unit := if options.unit == Some(Kg) then "kilograms"
                    else if options.unit == Some(Gram) then "grams"
                    else "pounds";
        Some(HealthConnectRecord("Weight", startTime, endTime, WeightFields(time, Measure(unit, value))))
      case Height =>
        var unit := if options.unit == Some(Cm) || options.unit == Some(Meter) then "meters"
                    else if options.unit == Some(Foot) then "feet"
                    else "inches";
        var height := if options.unit == Some(Cm) then Quotient(options.value, 100.0) else value;
        Some(HealthConnectRecord("Height", startTime, endTime, HeightFields(time, Measure(unit, height))))
      case HeartRate =>
        Some(HealthConnectRecord("HeartRate", startTime, endTime, HeartRateFields([WrittenSample(time, value)])))
      case ActiveEnergyBurned =>
        var unit := if options.unit == Some(Calories) then "calories"
                    else if options.unit == Some(Joules) then "joules"
                    else "kilojoules";
        Some(HealthConnectRecord("ActiveCaloriesBurned", startTime, endTime, ActiveEnergyFields(Measure(unit, value))))
      case BasalEnergyBurned =>
        var unit := if options.unit == Some(Calories) then "kilocaloriesPerDay" else "watts";
        var power := if options.unit == Some(Calories) then value
                     else if options.unit == Some(Joules) then Quotient(options.value, 86400.0)  // J/day to watts
                     else Quotient(options.value, 86.4);                                       // kJ/day to watts
        Some(HealthConnectRecord("BasalMetabolicRate", startTime, endTime,
          BasalFields(time, Measure(unit, power))))
      case _ => None)
    case Other => None
  }

  /**
   * The Android record the serializer builds for a writable metric; the iOS
   * unit table plays no part in it.
   */
  function AndroidRecord(dataType: Metric, options: WriteTypes.WriteOptions, now: string): (r: Serialized)
    requires AndroidWritable(dataType)
    ensures r.HealthConnectRecord? && ShapedFor(dataType, r.fields)
    ensures forall iosUnitOf :: SerializeWriteOptions(Android, dataType, options, now, iosUnitOf) == Some(r)
  {
    SerializeWriteOptions(Android, dataType, options, now, _ => None).value
  }

  /** A blood-glucose metadata field keeps a caller's value and otherwise is 0, independently of the other two. */
  predicate KeptOrZero(metadata: Option<map<string, JsValue>>, key: string, written: JsValue) {
    && (Lookup(metadata, key) == Undefined ==> written == Num(0.0))
    && (Lookup(metadata, key) != Undefined ==> written == Lookup(metadata, key))
  }

  lemma GlucoseRecordFields(options: WriteTypes.WriteOptions, now: string)
    ensures var f := AndroidRecord(BloodGlucose, options, now).fields;
      && KeptOrZero(options.metadata, "relationToMeal", f.relationToMeal)
      && KeptOrZero(options.metadata, "mealType", f.mealType)
      && KeptOrZero(options.metadata, "specimenSource", f.specimenSource)
      && (f.level.unit == "milligramsPerDeciliter" <==> options.unit == Some(MgPerdL))
      && (f.level.unit != "milligramsPerDeciliter" ==> f.level.unit == "millimolesPerLiter")
      && f.level.value == OfNumber(options.value)
  {
  }

  lemma StepsRecordFields(options: WriteTypes.WriteOptions, now: string)
    ensures var r := AndroidRecord(Steps, options, now);
      && (options.value.Some? ==> r.fields.count == options.value.value)
      && (options.value.None? ==> r.fields.count == 0.0)
      && (WriteTypes.WellTyped(Steps, options) ==>
            r.startTime == options.startDate.value && r.endTime == options.endDate.value)
  {
  }

  lemma WeightRecordFields(options: WriteTypes.WriteOptions, now: string)
    ensures var f := AndroidRecord(Weight, options, now).fields;
      && f.weight.value == OfNumber(options.value)
      && (options.unit == Some(Kg) <==> f.weight.unit == "kilograms")
      && (options.unit == Some(Gram) <==> f.weight.unit == "grams")
      && (options.unit !in {Some(Kg), Some(Gram)} <==> f.weight.unit == "pounds")
  {
  }

  lemma HeightRecordFields(options: WriteTypes.WriteOptions, now: string)
    ensures var f := AndroidRecord(Height, options, now).fields;
      && (options.unit in {Some(Cm), Some(Meter)} <==> f.height.unit == "meters")
      && (options.unit == Some(Foot) <==> f.height.unit == "feet")
      && (options.unit !in {Some(Cm), Some(Meter), Some(Foot)} <==> f.height.unit == "inches")
      && (options.unit == Some(Cm) && options.value.Some? ==>
            f.height.value.Num? && f.height.value.n * 100.0 == options.value.value)
      && (options.unit == Some(Cm) && options.value.None? ==> f.height.value == NaN)
      && (options.unit != Some(Cm) ==> f.height.value == OfNumber(options.value))
  {
  }

  lemma HeartRateRecordFields(options: WriteTypes.WriteOptions, now: string)
    ensures var r := AndroidRecord(HeartRate, options, now);
      r.fields.samples == [WrittenSample(options.time.GetOr(r.startTime), OfNumber(options.value))]
  {
  }

  lemma ActiveEnergyRecordFields(options: WriteTypes.WriteOptions, now: string)
    ensures var r := AndroidRecord(ActiveEnergyBurned, options, now);
      && r.recordType == "ActiveCaloriesBurned"
      && r.fields.energy.value == OfNumber(options.value)
      && (options.unit == Some(Calories) <==> r.fields.energy.unit == "calories")
      && (options.unit == Some(Joules) <==> r.fields.energy.unit == "joules")
      && (options.unit !in {Some(Calories), Some(Joules)} <==> r.fields.energy.unit == "kilojoules")
  {
  }

  lemma BasalEnergyRecordFields(options: WriteTypes.WriteOptions, now: string)
    ensures var m := AndroidRecord(BasalEnergyBurned, options, now).fields.basalMetabolicRate;
      && (options.unit == Some(Calories) ==> m == Measure("kilocaloriesPerDay", OfNumber(options.value)))
      && (options.unit != Some(Calories) ==> m.unit == "watts")
      && (options.unit != Some(Calories) && options.value.None? ==> m.value == NaN)
      && (options.unit == Some(Joules) && options.value.Some? ==>
            m.value.Num? && m.value.n * 86400.0 == options.value.value)
      && (options.unit !in {Some(Calories), Some(Joules)} && options.value.Some? ==>
            m.value.Num? && m.value.n * 86.4 == options.value.value)
  {
  }

  /** On iOS the value is converted to HealthKit's native unit: grams for kilograms, metres for centimetres. */
  lemma IosNativeValue(dataType: Metric, options: WriteTypes.WriteOptions, now: string, iosUnitOf: string -> Option<string>)
    requires Truthy(options.unit)
    ensures var r := SerializeWriteOptions(IOS, dataType, options, now, iosUnitOf).value;
      && (options.unit == Some(Kg) ==> r.value == 1000.0 * options.value.GetOr(0.0))
      && (options.unit == Some(Cm) ==> r.value * 100.0 == options.value.GetOr(0.0))
      && (options.unit !in {Some(Kg), Some(Cm)} ==> r.value == options.value.GetOr(0.0))
  {
  }
}
