/**
 * The write request types (`WriteDataType`, `WriteOptions`) and the older
 * serializer that the package still exports next to them.
 */
module WriteTypes {
  import opened Wrappers
  import opened Runtime
  import opened DataTypes

  /**
   * `WriteOptions<T>`: what a caller hands to `write`. The value is a number for
   * every metric `WriteDataType` admits; metadata is an open record.
   */
  datatype WriteOptions = WriteOptions(
    value: Option<real>,
    time: Option<string>,
    unit: Option<string>,
    metadata: Option<map<string, JsValue>>,
    startDate: Option<string>,
    endDate: Option<string>)

  /** `WriteDataType`: the metrics the write entry point is typed to accept. */
  predicate IsWriteDataType(m: Metric) {
    m in {BloodGlucose, Height, Weight, HeartRate, Steps}
  }

  /** What the type `WriteOptions<T>` demands: a Steps request carries both dates. */
  predicate WellTyped(dataType: Metric, options: WriteOptions) {
    IsWriteDataType(dataType) && (dataType == Steps ==> options.startDate.Some? && options.endDate.Some?)
  }

  /** The `level` of a blood-glucose record built by the older serializer. */
  datatype GlucoseLevel = GlucoseLevel(unit: Option<string>, value: Option<real>)

  /** What the older serializer returns when it does not return `null`. */
  datatype LegacyOutput =
    | OptionsUnchanged(options: WriteOptions)
    | GlucoseRecord(recordType: Metric, startTime: Option<string>, endTime: Option<string>, level: GlucoseLevel)

  /**
   * The older `serializeWriteOptions`. `glucoseUnitOf` stands for the lookup
   * table `androidBloodGlucoseUnitMap`, whose entries are not part of this model.
   * On Android only blood glucose is serialized, and the dates are copied
   * without any default.
   */
  function SerializeWriteOptions(
    platform: Platform, dataType: Metric, options: WriteOptions,
    glucoseUnitOf: string -> Option<string>): (r: Option<LegacyOutput>)
    ensures r.None? <==> platform == Android && dataType != BloodGlucose
    ensures platform != Android ==> r == Some(OptionsUnchanged(options))
    ensures platform == Android && r.Some? ==>
      && r.value.GlucoseRecord?
      && r.value.recordType == dataType
      && r.value.startTime == options.startDate
      && r.value.endTime == options.endDate
      && r.value.level.value == options.value
    ensures platform == Android && r.Some? && Truthy(options.unit) ==>
      r.value.level.unit == glucoseUnitOf(options.unit.value)
    ensures platform == Android && r.Some? && !Truthy(options.unit) ==>
      r.value.level.unit == Some("millimolesPerLiter")
  {
    match platform
    case IOS => Some(OptionsUnchanged(options))
    case Android =>
      if dataType == BloodGlucose then
        var unit := if Truthy(options.unit) then glucoseUnitOf(options.unit.value) else Some("millimolesPerLiter");
        Some(GlucoseRecord(dataType, options.startDate, options.endDate, GlucoseLevel(unit, options.value)))
      else None
    case Other => Some(OptionsUnchanged(options))
  }
}
