/**
 * The read deserializer: collapses a HealthKit sample or a Health Connect
 * record into the one result shape callers see, and folds a batch of them.
 */
module Results {
  import opened Wrappers
  import opened Runtime
  import opened DataTypes
  import opened Units

  /** The part of the read options the deserializer consults. */
  datatype ReadOptions = ReadOptions(unit: Option<string>)

  /**
   * A HealthKit sample (`HealthValue`). The source reads `sourceId` and the two
   * blood-pressure fields through an untyped view, so they may be undefined.
   */
  datatype HealthValue = HealthValue(
    value: real,
    id: Option<string>,
    startDate: string,
    metadata: Option<map<string, JsValue>>,
    sourceId: JsValue,
    bloodPressureSystolicValue: JsValue,
    bloodPressureDiastolicValue: JsValue)

  datatype BloodGlucoseLevel = BloodGlucoseLevel(inMilligramsPerDeciliter: real, inMillimolesPerLiter: real)
  datatype Pressure = Pressure(inMillimetersOfMercury: real)
  datatype HeartRateSample = HeartRateSample(time: string, beatsPerMinute: real)

  /** The type-specific part of a Health Connect record. */
  datatype RecordBody =
    | BloodGlucoseRecord(level: Option<BloodGlucoseLevel>, relationToMeal: real, mealType: real, specimenSource: real)
    | BloodPressureRecord(systolic: Pressure, diastolic: Pressure)
    | HeightRecord(height: Length)
    | WeightRecord(weight: Mass)
    | HeartRateRecord(samples: seq<HeartRateSample>)
    | RestingHeartRateRecord(beatsPerMinute: real)
    | OxygenSaturationRecord(percentage: real)
    | StepsRecord(count: real)
    | ActiveCaloriesBurnedRecord(energy: Energy)
    | BasalMetabolicRateRecord(basalMetabolicRate: Power)
    | OtherRecord

  /** A Health Connect record (`RecordResult`): metadata, the instant if it has one, the typed body. */
  datatype AndroidRecord = AndroidRecord(metadata: Option<map<string, JsValue>>, time: Option<string>, body: RecordBody)

  /** One element of what a platform store returned. */
  datatype RawRecord = FromHealthKit(sample: HealthValue) | FromHealthConnect(record: AndroidRecord)

  /** The `value` of a result: a scalar, or blood pressure's pair. */
  datatype ReadValue = Scalar(v: JsValue) | Pair(systolic: JsValue, diastolic: JsValue)

  /** `HealthLinkDataValue`: the one result shape both platforms are collapsed into. */
  datatype HealthLinkDataValue = HealthLinkDataValue(value: ReadValue, id: JsValue, time: Option<string>, metadata: map<string, JsValue>)

  /**
   * The energy selectors `androidActiveEnergyUnitMap` and
   * `androidBasalEnergyUnitMap`, whose bodies are not part of this model.
   */
  datatype EnergyMaps = EnergyMaps(active: (Energy, Option<string>) -> JsValue, basal: (Power, Option<string>) -> JsValue)

  /** The record type the source casts an Android record to when it reads the metric. */
  predicate BodyFor(dataType: Metric, body: RecordBody) {
    match dataType
    case BloodGlucose => body.BloodGlucoseRecord?
    case BloodPressure => body.BloodPressureRecord?
    case Height => body.HeightRecord?
    case Weight => body.WeightRecord?
    case HeartRate => body.HeartRateRecord?
    case RestingHeartRate => body.RestingHeartRateRecord?
    case OxygenSaturation => body.OxygenSaturationRecord?
    case Steps => body.StepsRecord?
    case ActiveEnergyBurned => body.ActiveCaloriesBurnedRecord?
    case BasalEnergyBurned => body.BasalMetabolicRateRecord?
    case LeanBodyMass => true
  }

  /** A raw record is of the kind the platform's branch reads it as. */
  predicate Fits(platform: Platform, dataType: Metric, raw: RawRecord) {
    match platform
    case IOS => raw.FromHealthKit?
    case Android => raw.FromHealthConnect? && BodyFor(dataType, raw.record.body)
    case Other => true
  }

  /** The fields every iOS result starts from. */
  function IosBase(s: HealthValue): HealthLinkDataValue {
    HealthLinkDataValue(Scalar(Num(s.value)), OfString(s.id), Some(s.startDate),
                        Spread(s.metadata)["source" := s.sourceId])
  }

  /** The fields every Android result starts from; it has no value of its own. */
  function AndroidBase(rec: AndroidRecord): HealthLinkDataValue {
    HealthLinkDataValue(Scalar(Undefined), Lookup(rec.metadata, "id"), rec.time,
                        Spread(rec.metadata)["source" := Lookup(rec.metadata, "dataOrigin")])
  }

  /**
   * `dataValueDeserializer`. Every iOS sample and every Android record becomes
   * a result; only on another platform is the answer `null`.
   */
  function DataValueDeserializer(
    platform: Platform, dataType: Metric, options: ReadOptions, raw: RawRecord, maps: EnergyMaps): (r: Option<HealthLinkDataValue>)
    requires Fits(platform, dataType, raw)
    ensures r.None? <==> platform == Other
    ensures platform == IOS ==>
      && r.value.id == OfString(raw.sample.id)
      && r.value.time == Some(raw.sample.startDate)
      && r.value.metadata == Spread(raw.sample.metadata)["source" := raw.sample.sourceId]
    ensures platform == IOS && dataType !in {BloodPressure, OxygenSaturation} ==>
      r.value.value == Scalar(Num(raw.sample.value))
    ensures platform == Android ==>
      && r.value.id == Lookup(raw.record.metadata, "id")
      && "source" in r.value.metadata
      && r.value.metadata["source"] == Lookup(raw.record.metadata, "dataOrigin")
      && (forall key :: key in Spread(raw.record.metadata) ==> key in r.value.metadata)
    ensures platform == Android ==>
      forall key :: key in Spread(raw.record.metadata) && key !in {"source", "relationToMeal", "mealType", "specimenSource"} ==>
        r.value.metadata[key] == Spread(raw.record.metadata)[key]
    ensures platform == Android && dataType != BloodGlucose ==>
      r.value.metadata == Spread(raw.record.metadata)["source" := Lookup(raw.record.metadata, "dataOrigin")]
    ensures platform == Android && dataType == BloodGlucose ==>
      r.value.metadata.Keys == Spread(raw.record.metadata).Keys + {"source", "relationToMeal", "mealType", "specimenSource"}
    ensures platform == Android && dataType != HeartRate ==> r.value.time == raw.record.time
  {
    match platform
    case IOS =>
      var s := raw.sample;
      var result := IosBase(s);
      (match dataType
       case BloodPressure =>
         Some(result.(value := Pair(s.bloodPressureSystolicValue, s.bloodPressureDiastolicValue)))
       case OxygenSaturation =>
         Some(result.(value := Scalar(Num(s.value * 100.0))))
       case _ => Some(result))
    case Android =>
      var rec := raw.record;
      var result := AndroidBase(rec);
      (match dataType
       case BloodGlucose =>
         var b := rec.body;
         Some(result.(metadata := result.metadata["relationToMeal" := Num(b.relationToMeal)]
                                                 ["mealType" := Num(b.mealType)]
                                                 ["specimenSource" := Num(b.specimenSource)],
                      value := Scalar(
                        if b.level.None? then Undefined
                        else if options.unit == Some(MgPerdL) then Num(b.level.value.inMilligramsPerDeciliter)
                        else Num(b.level.value.inMillimolesPerLiter))))
       case BloodPressure =>
         Some(result.(value := Pair(Num(rec.body.systolic.inMillimetersOfMercury),
                                    Num(rec.body.diastolic.inMillimetersOfMercury))))
       case Height =>
         Some(result.(value := Scalar(Num(AndroidHeightUnitMap(rec.body.height, options.unit)))))
       case Weight =>
         Some(result.(value := Scalar(Num(AndroidWeightUnitMap(rec.body.weight, options.unit)))))
       case HeartRate =>
         var samples := rec.body.samples;
         if |samples| > 0 then
           Some(result.(value := Scalar(Num(samples[0].beatsPerMinute)), time := Some(samples[0].time)))
         else Some(result.(value := Scalar(Undefined), time := None))
       case RestingHeartRate =>
         Some(result.(value := Scalar(Num(rec.body.beatsPerMinute))))
       case OxygenSaturation =>
         Some(result.(value := Scalar(Num(rec.body.percentage))))
       case Steps =>
         Some(result.(value := Scalar(Num(rec.body.count))))
       case ActiveEnergyBurned =>
         Some(result.(value := Scalar(maps.active(rec.body.energy, options.unit))))
       case BasalEnergyBurned =>
         Some(result.(value := Scalar(maps.basal(rec.body.basalMetabolicRate, options.unit))))
       case LeanBodyMass => Some(result))
    case Other => None
  }

  /** iOS: blood pressure is read as the sample's pair, oxygen saturation is scaled from a fraction to a percentage. */
  lemma IosCompoundAndScaledValues(dataType: Metric, options: ReadOptions, s: HealthValue, maps: EnergyMaps)
    ensures dataType == BloodPressure ==>
      DataValueDeserializer(IOS, dataType, options, FromHealthKit(s), maps).value.value
        == Pair(s.bloodPressureSystolicValue, s.bloodPressureDiastolicValue)
    ensures dataType == OxygenSaturation ==>
      DataValueDeserializer(IOS, dataType, options, FromHealthKit(s), maps).value.value == Scalar(Num(100.0 * s.value))
  {
  }

  /**
   * Both platforms report oxygen saturation on the percentage scale: a HealthKit
   * fraction and the equal Health Connect percentage read back the same.
   */
  lemma OxygenSaturationScalesAgree(options: ReadOptions, s: HealthValue, rec: AndroidRecord, maps: EnergyMaps)
    requires rec.body.OxygenSaturationRecord? && rec.body.percentage == 100.0 * s.value
    ensures DataValueDeserializer(IOS, OxygenSaturation, options, FromHealthKit(s), maps).value.value
         == DataValueDeserializer(Android, OxygenSaturation, options, FromHealthConnect(rec), maps).value.value
  {
  }

  /** Android blood glucose: the field follows the requested unit, and the meal and specimen fields join the metadata. */
  lemma AndroidGlucoseValue(options: ReadOptions, rec: AndroidRecord, maps: EnergyMaps)
    requires rec.body.BloodGlucoseRecord?
    ensures var r := DataValueDeserializer(Android, BloodGlucose, options, FromHealthConnect(rec), maps).value;
      && (rec.body.level.Some? && options.unit == Some(MgPerdL) ==>
            r.value == Scalar(Num(rec.body.level.value.inMilligramsPerDeciliter)))
      && (rec.body.level.Some? && options.unit != Some(MgPerdL) ==>
            r.value == Scalar(Num(rec.body.level.value.inMillimolesPerLiter)))
      && (rec.body.level.None? ==> r.value == Scalar(Undefined))
      && r.metadata["relationToMeal"] == Num(rec.body.relationToMeal)
      && r.metadata["mealType"] == Num(rec.body.mealType)
      && r.metadata["specimenSource"] == Num(rec.body.specimenSource)
  {
  }

  /** Android blood pressure reads both millimetre-of-mercury fields; heart rate reads value and time from the first sample. */
  lemma AndroidPressureAndHeartRate(dataType: Metric, options: ReadOptions, rec: AndroidRecord, maps: EnergyMaps)
    requires BodyFor(dataType, rec.body)
    ensures dataType == BloodPressure ==>
      DataValueDeserializer(Android, dataType, options, FromHealthConnect(rec), maps).value.value
        == Pair(Num(rec.body.systolic.inMillimetersOfMercury), Num(rec.body.diastolic.inMillimetersOfMercury))
    ensures dataType == HeartRate && |rec.body.samples| > 0 ==>
      var r := DataValueDeserializer(Android, dataType, options, FromHealthConnect(rec), maps).value;
      r.value == Scalar(Num(rec.body.samples[0].beatsPerMinute)) && r.time == Some(rec.body.samples[0].time)
    ensures dataType == HeartRate && |rec.body.samples| == 0 ==>
      var r := DataValueDeserializer(Android, dataType, options, FromHealthConnect(rec), maps).value;
      r.value == Scalar(Undefined) && r.time == None
  {
  }

  /**
   * The remaining Android metrics pass their field through unscaled or hand
   * the reading and the requested unit to a unit selector; a metric with no
   * branch of its own yields the bare base result.
   */
  lemma AndroidPassThroughs(dataType: Metric, options: ReadOptions, rec: AndroidRecord, maps: EnergyMaps)
    requires BodyFor(dataType, rec.body)
    ensures var v := DataValueDeserializer(Android, dataType, options, FromHealthConnect(rec), maps).value.value;
      && (dataType == RestingHeartRate ==> v == Scalar(Num(rec.body.beatsPerMinute)))
      && (dataType == Steps ==> v == Scalar(Num(rec.body.count)))
      && (dataType == OxygenSaturation ==> v == Scalar(Num(rec.body.percentage)))
      && (dataType == Height ==> v == Scalar(Num(AndroidHeightUnitMap(rec.body.height, options.unit))))
      && (dataType == Weight ==> v == Scalar(Num(AndroidWeightUnitMap(rec.body.weight, options.unit))))
      && (dataType == ActiveEnergyBurned ==> v == Scalar(maps.active(rec.body.energy, options.unit)))
      && (dataType == BasalEnergyBurned ==> v == Scalar(maps.basal(rec.body.basalMetabolicRate, options.unit)))
    ensures dataType == LeanBodyMass ==>
      DataValueDeserializer(Android, dataType, options, FromHealthConnect(rec), maps) == Some(AndroidBase(rec))
  {
  }

  // ---------------------------------------------------------------------------
  // The batch: `readDataResultDeserializer`

  /** What a platform read returned: HealthKit's bare array or Health Connect's `{records}`. */
  datatype ReadPayload = SampleArray(samples: seq<HealthValue>) | RecordsResult(records: seq<AndroidRecord>)

  /** Whether a call returned normally or threw JavaScript's `TypeError`. */
  datatype Completion<T> = Returned(value: T) | ThrewTypeError

  /** The elements of a payload, as raw records. */
  function Elements(data: ReadPayload): (r: seq<RawRecord>)
    ensures data.SampleArray? ==> |r| == |data.samples| && forall i :: 0 <= i < |r| ==> r[i] == FromHealthKit(data.samples[i])
    ensures data.RecordsResult? ==> |r| == |data.records| && forall i :: 0 <= i < |r| ==> r[i] == FromHealthConnect(data.records[i])
  {
    match data
    case SampleArray(samples) => seq(|samples|, i requires 0 <= i < |samples| => FromHealthKit(samples[i]))
    case RecordsResult(records) => seq(|records|, i requires 0 <= i < |records| => FromHealthConnect(records[i]))
  }

  /**
   * `Platform.OS === 'ios' ? data : data.records`, as the array `.reduce` is
   * then called on: `None` when that is not an array, so that `.reduce` throws.
   */
  function DataValueArray(platform: Platform, data: ReadPayload): (r: Option<seq<RawRecord>>)
    ensures r.Some? <==> (platform == IOS) == data.SampleArray?
    ensures r.Some? ==> r.value == Elements(data)
  {
    if platform == IOS then
      if data.SampleArray? then Some(Elements(data)) else None
    else
      if data.RecordsResult? then Some(Elements(data)) else None
  }

  /** What the Android store delivers for a typed read: records of the type that was asked for. */
  predicate PayloadFits(platform: Platform, dataType: Metric, data: ReadPayload) {
    platform == Android && data.RecordsResult? ==>
      forall i :: 0 <= i < |data.records| ==> BodyFor(dataType, data.records[i].body)
  }

  predicate AllFit(platform: Platform, dataType: Metric, raws: seq<RawRecord>) {
    forall i :: 0 <= i < |raws| ==> Fits(platform, dataType, raws[i])
  }

  /** The single-record deserializer applied to each element. */
  function DeserializeEach(
    platform: Platform, dataType: Metric, options: ReadOptions, raws: seq<RawRecord>, maps: EnergyMaps): (r: seq<Option<HealthLinkDataValue>>)
    requires AllFit(platform, dataType, raws)
    ensures |r| == |raws|
    ensures forall i :: 0 <= i < |raws| ==> r[i] == DataValueDeserializer(platform, dataType, options, raws[i], maps)
  {
    seq(|raws|, i requires 0 <= i < |raws| => DataValueDeserializer(platform, dataType, options, raws[i], maps))
  }

  /** The present entries of a sequence, in their order. */
  function Compact<T>(xs: seq<Option<T>>): seq<T> {
    if xs == [] then []
    else Compact(xs[..|xs| - 1]) + (if xs[|xs| - 1].Some? then [xs[|xs| - 1].value] else [])
  }

  lemma {:induction false} CompactLength<T>(xs: seq<Option<T>>)
    ensures |Compact(xs)| <= |xs|
  {
    if xs != [] {
      CompactLength(xs[..|xs| - 1]);
    }
  }

  /** Keeping the present entries distributes over concatenation: what is kept keeps its relative order. */
  lemma {:induction false} CompactAppend<T>(xs: seq<Option<T>>, ys: seq<Option<T>>)
    ensures Compact(xs + ys) == Compact(xs) + Compact(ys)
  {
    if ys == [] {
      assert xs + ys == xs;
    } else {
      var n := |ys| - 1;
      assert (xs + ys)[..|xs + ys| - 1] == xs + ys[..n];
      CompactAppend(xs, ys[..n]);
    }
  }

  /** When every entry is present nothing is dropped, and the i-th result is the i-th entry. */
  lemma {:induction false} CompactAllPresent<T>(xs: seq<Option<T>>)
    requires forall i :: 0 <= i < |xs| ==> xs[i].Some?
    ensures |Compact(xs)| == |xs|
    ensures forall i :: 0 <= i < |xs| ==> Compact(xs)[i] == xs[i].value
  {
    if xs != [] {
      CompactAllPresent(xs[..|xs| - 1]);
    }
  }

  /** When no entry is present the result is empty. */
  lemma {:induction false} CompactNonePresent<T>(xs: seq<Option<T>>)
    requires forall i :: 0 <= i < |xs| ==> xs[i].None?
    ensures Compact(xs) == []
  {
    if xs != [] {
      CompactNonePresent(xs[..|xs| - 1]);
    }
  }

  /**
   * The loop of the `reduce`: deserialize each element in turn and push the
   * result into the accumulator unless it is `null`.
   */
  method CollectNonNull(
    platform: Platform, dataType: Metric, options: ReadOptions, items: seq<RawRecord>, maps: EnergyMaps)
    returns (acc: seq<HealthLinkDataValue>)
    requires AllFit(platform, dataType, items)
    ensures acc == Compact(DeserializeEach(platform, dataType, options, items, maps))
  {
    ghost var each := DeserializeEach(platform, dataType, options, items, maps);
    acc := [];
    var i := 0;
    while i < |items|
      invariant 0 <= i <= |items|
      invariant acc == Compact(each[..i])
    {
      var deserialized := DataValueDeserializer(platform, dataType, options, items[i], maps);
      assert each[..i + 1][..i] == each[..i];
      if deserialized.Some? {
        acc := acc + [deserialized.value];
      }
      i := i + 1;
    }
    assert each[..|items|] == each;
  }

  /**
   * `readDataResultDeserializer`, as written: when the payload is not the
   * array the platform branch expects, `.reduce` throws.
   */
  method ReadDataResultDeserializer(
    platform: Platform, dataType: Metric, options: ReadOptions, data: ReadPayload, maps: EnergyMaps)
    returns (r: Completion<seq<HealthLinkDataValue>>)
    requires PayloadFits(platform, dataType, data)
    ensures r.Returned? <==> (platform == IOS) == data.SampleArray?
    ensures r.Returned? ==> r.value == Compact(DeserializeEach(platform, dataType, options, Elements(data), maps))
  {
    var dataValueArray := DataValueArray(platform, data);
    if dataValueArray.None? {
      return ThrewTypeError;
    }
    var results := CollectNonNull(platform, dataType, options, dataValueArray.value, maps);
    return Returned(results);
  }

  /** On iOS and Android no record is dropped: the batch is the records' results, one for one, in order. */
  lemma BatchKeepsEveryRecordOnMobile(
    platform: Platform, dataType: Metric, options: ReadOptions, items: seq<RawRecord>, maps: EnergyMaps)
    requires platform != Other && AllFit(platform, dataType, items)
    ensures var out := Compact(DeserializeEach(platform, dataType, options, items, maps));
      && |out| == |items|
      && forall i :: 0 <= i < |items| ==> Some(out[i]) == DataValueDeserializer(platform, dataType, options, items[i], maps)
  {
    CompactAllPresent(DeserializeEach(platform, dataType, options, items, maps));
  }

  /** On any other platform every record deserializes to `null`, so the batch is empty. */
  lemma BatchIsEmptyOffMobile(dataType: Metric, options: ReadOptions, items: seq<RawRecord>, maps: EnergyMaps)
    ensures Compact(DeserializeEach(Other, dataType, options, items, maps)) == []
  {
    CompactNonePresent(DeserializeEach(Other, dataType, options, items, maps));
  }

  /** `read` on a platform that is neither iOS nor Android hands over `[]`, and the batch throws instead of returning `[]`. */
  lemma ReadOffMobileThrows()
    ensures DataValueArray(Other, SampleArray([])).None?
  {
  }

  /**
   * The batch with the intended guard (`Array.isArray(data) ? data : data.records`):
   * it never throws, and off iOS and Android it returns no results.
   */
  method ReadDataResultDeserializerGuarded(
    platform: Platform, dataType: Metric, options: ReadOptions, data: ReadPayload, maps: EnergyMaps)
    returns (r: seq<HealthLinkDataValue>)
    requires platform == IOS ==> data.SampleArray?
    requires platform == Android ==> data.RecordsResult?
    requires PayloadFits(platform, dataType, data)
    ensures r == Compact(DeserializeEach(platform, dataType, options, Elements(data), maps))
    ensures platform == Other ==> r == []
    ensures platform != Other ==> |r| == |Elements(data)|
  {
    var items := Elements(data);  // the payload itself when it is an array, otherwise its records
    r := CollectNonNull(platform, dataType, options, items, maps);
    BatchIsEmptyOffMobile(dataType, options, items, maps);
    if platform != Other {
      BatchKeepsEveryRecordOnMobile(platform, dataType, options, items, maps);
    }
  }
}
