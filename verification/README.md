# react-native-health-link: the translation layer, in Dafny

react-native-health-link gives React Native apps one API over two health stores: Apple HealthKit on iOS and Google Health Connect on Android. This project models the pure layer between the library's platform-neutral metrics and each store's record shapes, and proves what that layer promises. The layer has five parts:

- **Write serializer** (`serializeWriteOptions`). It turns a write request into a HealthKit `{unit, value}` pair on iOS or a typed Health Connect record on Android, or into `null`.
- **Older serializer** (`serializeWriteOptions` in the write types file), together with the `WriteDataType` and `WriteOptions` types. The package still exports it.
- **Read deserializers** (`dataValueDeserializer` and `readDataResultDeserializer`). They collapse a HealthKit sample or a Health Connect record into one result shape, then fold a batch of them, dropping `null`s.
- **Unit selectors** (`androidHeightUnitMap`, `androidWeightUnitMap`). Each picks the field of a Health Connect reading for the requested unit.
- **Permission mapping** (`genericToIosPermissions`, `genericToAndroidPermissions` and their two tables).

Layout: one module per source file, plus three shared modules.

| file | module | models |
|---|---|---|
| wrappers.dfy | `Wrappers` | `Option` |
| runtime.dfy | `Runtime` | the platform switch; JavaScript values that may be `undefined` or `NaN`; `??`, truthiness, object spread and `?.` |
| data_types.dfy | `DataTypes` | the metric enum `HealthLinkDataType` |
| units.dfy | `Units` | src/types/units.ts |
| write_types.dfy | `WriteTypes` | src/types/save.ts |
| save.dfy | `Save` | src/helpers/save.ts |
| results.dfy | `Results` | src/helpers/results.ts, with the result type of src/types/results.ts |
| permissions.dfy | `Permissions` | src/helpers/permissions.ts |
| round_trip.dfy | `RoundTrip` | write, then store, then read, on Android |

Modelling choices:

- `Platform.OS` is a parameter `IOS | Android | Other`.
- Both clock readings `new Date().toISOString()` are one parameter `now`.
- Numbers are exact reals.
- A value the source may read as `undefined`, or compute as `NaN` (`undefined / 100`), is a `JsValue`.
- Some lookups are imported from src/types/units.ts, but the text of that file modelled here does not define them: `unitToIosUnitMap`, `androidBloodGlucoseUnitMap`, `androidActiveEnergyUnitMap` and `androidBasalEnergyUnitMap`. Each is a function-typed parameter, and nothing is assumed about its entries.
- The enum `EnergyUnit` is not defined in the text of src/types/units.ts modelled here either. The constants `Calories = "calories"` and `Joules = "joules"` come from the library's test, which checks that the enum contains these two values (__tests__/dataTypes.test.ts:645-646).
- The reducers of the imperative code are methods with loops.
  - `genericToAndroidPermissions` and `genericToIosPermissions` are methods.
  - So is the fold of `readDataResultDeserializer`.
  - Each is proved against a specification function.
- The type-level rules of src/types/save.ts:14-37 are two predicates with no contract of their own. `WriteTypes.IsWriteDataType` holds exactly for the `WriteDataType` union: BloodGlucose, Height, Weight, HeartRate and Steps. `WriteTypes.WellTyped` adds that a Steps request carries both `startDate` and `endDate`. `Save.StepsRecordFields` uses `WellTyped`.
- The TypeScript casts `as RecordResult<'Height'>` etc. become the precondition `Fits`: the record handed to a metric's branch has that metric's shape.

Two behaviours of the code are easy to get wrong, and the model follows the code:

- **Unknown metric on Android.** The batch does not drop records of a metric that has no branch of its own. On Android such a record yields the bare base result, with no value. `null` comes only from a platform that is neither iOS nor Android.
- **The batch can throw.** `read` resolves to an array on iOS and Android (src/index.tsx:148-154). But on any platform other than iOS, the batch reads `.records` from its input. Given an array, that is `undefined`, and `.reduce` on it throws.
  - `Results.ReadDataResultDeserializer` models that as `ThrewTypeError`.
  - See the findings below.

## Model

| member | source | states |
|---|---|---|
| Units.AndroidHeightUnitMap | src/types/units.ts:21-37 | Cm reads `inMeters × 100`; Meter reads `inMeters`; Foot reads `inFeet`; every other unit, including none and Inch, reads `inInches` |
| Units.AndroidWeightUnitMap | src/types/units.ts:39-53 | Kg reads `inKilograms`; Gram reads `inGrams`; every other unit, including none and Pounds, reads `inPounds` |
| Units.SelectorsAreTotal | src/types/units.ts:21-53 | for every unit string and for none, each selector returns one of the reading's fields; there is no error path |
| WriteTypes.SerializeWriteOptions | src/types/save.ts:39-74 | null exactly for Android with a metric other than BloodGlucose; on iOS and other platforms the options come back unchanged; the Android glucose record copies the metric, both dates without defaulting and the value; its unit is the glucose unit table's entry when a unit is given, else `millimolesPerLiter` |
| Save.SerializeWriteOptions | src/helpers/save.ts:16-146 | null exactly for another platform, iOS without a (truthy) unit, or Android with a metric it cannot write; iOS value is `value ?? 0` scaled by 1000 for Kg and by 1/100 for Cm; every Android record has the metric's record type, `startDate ?? now`, `endDate ?? now` and the metric's field shape; its instant is `time ?? startTime` exactly for the metrics that carry one |
| Save.AndroidRecord | src/helpers/save.ts:35-142 | each writable metric yields a Health Connect record of that metric's shape, the same whatever the iOS unit table |
| Save.GlucoseRecordFields | src/helpers/save.ts:42-61 | relationToMeal, mealType and specimenSource each keep the caller's value or default to 0 independently; unit `milligramsPerDeciliter` iff MgPerdL, else `millimolesPerLiter`; value unchanged |
| Save.StepsRecordFields | src/helpers/save.ts:62-67 | count is the value, or 0 when absent; a well-typed Steps request keeps its own dates |
| Save.WeightRecordFields | src/helpers/save.ts:68-81 | value never scaled; label `kilograms` iff Kg, `grams` iff Gram, `pounds` iff neither |
| Save.HeightRecordFields | src/helpers/save.ts:82-99 | label `meters` iff Cm or Meter, `feet` iff Foot, `inches` otherwise; the value is divided by 100 only for Cm, and a missing value is then NaN |
| Save.HeartRateRecordFields | src/helpers/save.ts:100-110 | exactly one sample `{time ?? startTime, value}` |
| Save.ActiveEnergyRecordFields | src/helpers/save.ts:111-123 | record type `ActiveCaloriesBurned`; label `calories` iff Calories, `joules` iff Joules, `kilojoules` otherwise; value unchanged |
| Save.BasalEnergyRecordFields | src/helpers/save.ts:124-139 | Calories gives `kilocaloriesPerDay` with the value unchanged; every other unit gives `watts`, Joules as value/86400 and the rest as value/86.4 |
| Save.IosNativeValue | src/helpers/save.ts:20-33 | iOS value is 1000 × value for Kg, value/100 for Cm, the value otherwise, with a missing value counted as 0 |
| Results.DataValueDeserializer | src/helpers/results.ts:26-170 | null exactly off iOS and Android; iOS id, time (`startDate`) and metadata with `source` from `sourceId`, value passed through except for BloodPressure and OxygenSaturation; Android id from `metadata.id`, `source` from `metadata.dataOrigin`, every other metadata key kept with its value (exactly the record's metadata plus `source` for every metric but BloodGlucose, whose metadata keys are exactly the record's plus `source`, `relationToMeal`, `mealType` and `specimenSource`), time from the record except for HeartRate |
| Results.IosCompoundAndScaledValues | src/helpers/results.ts:43-59 | iOS BloodPressure is the `{systolic, diastolic}` pair of the sample; iOS OxygenSaturation is the value × 100 |
| Results.OxygenSaturationScalesAgree | src/helpers/results.ts:52-56 | a HealthKit fraction and the equal Health Connect percentage read back as the same value |
| Results.AndroidGlucoseValue | src/helpers/results.ts:72-88 | `inMilligramsPerDeciliter` iff the requested unit is MgPerdL, else `inMillimolesPerLiter`; undefined when the level is missing; the metadata gains the three meal and specimen fields |
| Results.AndroidPressureAndHeartRate | src/helpers/results.ts:89-122 | BloodPressure reads both `inMillimetersOfMercury` fields; HeartRate takes value and time from `samples[0]`, both undefined when there is no sample |
| Results.AndroidPassThroughs | src/helpers/results.ts:100-166 | RestingHeartRate, Steps and OxygenSaturation pass their field through unscaled; Height, Weight and the energy metrics hand the reading and the requested unit to their unit selector; a metric with no branch yields the bare base result |
| Results.DataValueArray | src/helpers/results.ts:177-180 | the elements are found exactly when iOS receives an array or another platform receives `{records}` |
| Results.DeserializeEach | src/helpers/results.ts:182-188 | one single-record result per element, in order |
| Results.CompactLength | src/helpers/results.ts:182-188 | dropping nulls never lengthens the list |
| Results.CompactAppend | src/helpers/results.ts:182-188 | dropping nulls distributes over concatenation, so order is kept |
| Results.CompactAllPresent | src/helpers/results.ts:182-188 | with no null, every result is kept, one for one, in order |
| Results.CompactNonePresent | src/helpers/results.ts:182-188 | with only nulls, nothing is kept |
| Results.CollectNonNull | src/helpers/results.ts:182-188 | the `reduce` that pushes each non-null result yields exactly the non-null results in input order |
| Results.ReadDataResultDeserializer | src/helpers/results.ts:172-189 | throws a TypeError exactly when the payload's shape does not match the platform; otherwise returns the non-null results in input order |
| Results.BatchKeepsEveryRecordOnMobile | src/helpers/results.ts:182-188 | on iOS and Android no record is dropped: the output has the input's length and each element is that record's result |
| Results.BatchIsEmptyOffMobile | src/helpers/results.ts:169-188 | off iOS and Android the batch is empty |
| Results.ReadOffMobileThrows | src/helpers/results.ts:177-182 | the `[]` handed over off iOS and Android has no `records`, so the batch throws |
| Results.ReadDataResultDeserializerGuarded | src/helpers/results.ts:172-189 | with the intended guard the batch never throws; off iOS and Android it is empty; on iOS and Android it has one result per record |
| Permissions.GenericToIosMap | src/helpers/permissions.ts:83-99 | BloodPressure, and only it, maps to the pair `[BloodPressureDiastolic, BloodPressureSystolic]`; every other permission maps to its own, non-empty name |
| Permissions.FlatAppend | src/helpers/permissions.ts:54-55 | flattening distributes over concatenation |
| Permissions.FlatSingles | src/helpers/permissions.ts:33 | spreading names one by one and flattening gives those names back |
| Permissions.ReadReducer | src/helpers/permissions.ts:31-39 | one call of the read callback as written adds, after flattening, the permission's names, twice for an array value |
| Permissions.IosReadPermissions | src/helpers/permissions.ts:30-41 | the flattened read fold is each permission's contribution, in input order |
| Permissions.IosWritePermissions | src/helpers/permissions.ts:43-51 | the flattened write fold is each permission's table value(s), in input order |
| Permissions.GenericToIosPermissions | src/helpers/permissions.ts:27-58 | the result is `{permissions: {read, write}}` with the read list as written and the write list as each permission's table value(s) in order |
| Permissions.ReadReducerFixed | src/helpers/permissions.ts:31-39 | with `else` between the two branches, one call adds the permission's table value(s) exactly once |
| Permissions.GenericToIosPermissionsFixed | src/helpers/permissions.ts:27-58 | with the corrected callback, the read list is the same mapping as the write list |
| Permissions.IosPermissionListLength | src/helpers/permissions.ts:43-55 | the mapped list has one name per permission plus one more per BloodPressure |
| Permissions.IosReadListLength | src/helpers/permissions.ts:30-41 | as written, the read list has one name per permission plus three more per BloodPressure |
| Permissions.IosReadListWithoutBloodPressure | src/helpers/permissions.ts:30-55 | without BloodPressure, the read list as written equals the mapped list |
| Permissions.IosNamesWithoutBloodPressure | src/helpers/permissions.ts:43-55 | without BloodPressure, the mapped list is the permissions' own names, one for one, in order |
| Permissions.BloodPressureReadTwice | src/helpers/permissions.ts:32-37 | reading BloodPressure asks for Diastolic, Systolic, Diastolic, Systolic, where writing it asks for Diastolic, Systolic |
| Permissions.GenericToAndroidMap | src/helpers/permissions.ts:101-112 | every permission maps to the non-empty record type of the same name |
| Permissions.PushRequests | src/helpers/permissions.ts:64-79 | one `forEach` appends one request per permission, in order, and leaves the earlier entries alone |
| Permissions.GenericToAndroidPermissions | src/helpers/permissions.ts:60-81 | length \|read\| + \|write\|; first one read request per read permission, then one write request per write permission, each in input order, with the table's record type |
| RoundTrip.HeightRoundTrip | src/helpers/save.ts:82-99 | a height written in any unit and stored faithfully reads back, in that unit, as the written value at the written instant (Cm: value/100 metres × 100) |
| RoundTrip.WeightRoundTrip | src/helpers/save.ts:68-81 | a weight written in any unit and stored faithfully reads back unchanged in that unit at the written instant |
| RoundTrip.GlucoseRoundTrip | src/helpers/save.ts:42-61 | a glucose level written in either unit and stored faithfully reads back unchanged in that unit at the written instant |

## Left out

- The entry points in src/index.tsx (`read`, `write`, `isAvailable`, `initializeHealth`) are not part of this model. They are asynchronous orchestration around the two native SDKs. One detail matters here: `write` returns early when the serializer gives `null`.
- The callback wrappers and dispatch tables are not modelled: `readIosCallback`, `writeIosCallback`, `dataValueToIosReadFunction` and `dataValueToIosWriteFunction`. They wrap or look up foreign SDK functions.
- `healthLinkToAndroidType` and `AndroidRecordTypeMap` are not part of this model. The map is imported from src/types/dataTypes.ts, but the text of that file modelled here does not define it.
- `optionsToAndroidOptions` is not part of this model, for the same reason.
- The entries of `unitToIosUnitMap`, `androidBloodGlucoseUnitMap`, `androidActiveEnergyUnitMap` and `androidBasalEnergyUnitMap` are not modelled. They are parameters.
- Floating point is not modelled. Numbers are exact reals, so the IEEE rounding of /100, /86400 and /86.4 is out of scope.
- Save.SerializeWriteOptions: both clock readings are one `now`. The source reads the clock twice, so `startTime` and `endTime` may differ by the time between the calls.
- WriteTypes.WriteOptions: the value is a number. A `{diastolic, systolic}` value is typed only for BloodPressure, and `WriteDataType` excludes BloodPressure, so no serializer branch receives one.
- Results.OxygenSaturationScalesAgree: the Health Connect `percentage` is modelled as the number its type declares. The library's test mock gives it as an object `{value: 98}`, which this model does not represent.
- Results.DataValueDeserializer: its precondition `Fits` stands for the source's unchecked casts. A record of another shape makes the source read `undefined` fields, or throw, and the model does not describe that.
- Permissions: the input lists are immutable sequences, so "the input lists are never modified" holds by construction and is not stated as a contract.
- RoundTrip: Health Connect's unit conversion is not modelled. The round-trip lemmas assume the store reports the written measure in the written unit.

## Findings

| source | as written | input that shows it | evidently intended | confidence | as-written member | corrected member |
|---|---|---|---|---|---|---|
| src/helpers/permissions.ts:32-37 | the array branch spreads BloodPressure's pair into the read list, and the truthy branch (no `else`) pushes the pair again, which `.flat()` then splices in | read permissions `[BloodPressure]` give `[BloodPressureDiastolic, BloodPressureSystolic, BloodPressureDiastolic, BloodPressureSystolic]` | each HealthKit permission once, `[BloodPressureDiastolic, BloodPressureSystolic]`, as on the write side | high; not executed | Permissions.BloodPressureReadTwice | Permissions.GenericToIosPermissionsFixed |
| src/helpers/results.ts:177-182 | any platform other than iOS is given `data.records`; `read` off iOS and Android hands over `[]` (src/index.tsx:155-165), whose `records` is undefined, so `.reduce` throws a TypeError | platform `Other`, data `[]` | an empty result list, as the per-record deserializer's `null` for such platforms suggests | medium; not executed | Results.ReadOffMobileThrows | Results.ReadDataResultDeserializerGuarded |
