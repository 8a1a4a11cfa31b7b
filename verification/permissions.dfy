/**
 * The permission mapping: turns the library's generic read and write
 * permissions into HealthKit's permission names and Health Connect's
 * permission requests, by two constant tables.
 */
module Permissions {

  /** `HealthLinkPermissions`. */
  datatype HealthLinkPermission =
    | BloodGlucose | Height | Weight | HeartRate | RestingHeartRate | BloodPressure | OxygenSaturation | Steps

  /** The enum's string value: the permission's own name. */
  function PermissionName(p: HealthLinkPermission): string {
    match p
    case BloodGlucose => "BloodGlucose"
    case Height => "Height"
    case Weight => "Weight"
    case HeartRate => "HeartRate"
    case RestingHeartRate => "RestingHeartRate"
    case BloodPressure => "BloodPressure"
    case OxygenSaturation => "OxygenSaturation"
    case Steps => "Steps"
  }

  /** `HealthPermissions`: the generic permissions a caller asks for. */
  datatype HealthPermissions = HealthPermissions(read: seq<HealthLinkPermission>, write: seq<HealthLinkPermission>)

  // ---------------------------------------------------------------------------
  // iOS

  /** A value of the iOS table, or an element of an accumulator holding them: `string | string[]`. */
  datatype IosEntry = One(name: string) | Many(names: seq<string>)

  const BloodPressureDiastolic: string := "BloodPressureDiastolic"
  const BloodPressureSystolic: string := "BloodPressureSystolic"

  /** `genericToIosMap`: one HealthKit permission per generic permission, except blood pressure's pair. */
  function GenericToIosMap(p: HealthLinkPermission): (e: IosEntry)
    ensures e.Many? <==> p == BloodPressure
    ensures e.Many? ==> e.names == [BloodPressureDiastolic, BloodPressureSystolic]
    ensures e.One? ==> e.name == PermissionName(p) && e.name != ""
  {
    match p
    case BloodGlucose => One("BloodGlucose")
    case Height => One("Height")
    case Weight => One("Weight")
    case HeartRate => One("HeartRate")
    case RestingHeartRate => One("RestingHeartRate")
    case BloodPressure => Many([BloodPressureDiastolic, BloodPressureSystolic])
    case OxygenSaturation => One("OxygenSaturation")
    case Steps => One("Steps")
  }

  /** JavaScript truthiness of a table value: every array is truthy, a string when it is not empty. */
  predicate Truthy(e: IosEntry) {
    e.Many? || e.name != ""
  }

  /** The HealthKit names an entry stands for. */
  function Names(e: IosEntry): seq<string> {
    match e
    case One(name) => [name]
    case Many(names) => names
  }

  /** `.flat()`: one level of arrays spliced into the list. */
  function Flat(acc: seq<IosEntry>): seq<string> {
    if acc == [] then [] else Flat(acc[..|acc| - 1]) + Names(acc[|acc| - 1])
  }

  /** The entries `push(...names)` adds: each name on its own. */
  function Singles(names: seq<string>): (r: seq<IosEntry>)
    ensures |r| == |names|
    ensures forall i :: 0 <= i < |names| ==> r[i] == One(names[i])
  {
    seq(|names|, i requires 0 <= i < |names| => One(names[i]))
  }

  lemma {:induction false} FlatAppend(xs: seq<IosEntry>, ys: seq<IosEntry>)
    ensures Flat(xs + ys) == Flat(xs) + Flat(ys)
  {
    if ys == [] {
      assert xs + ys == xs;
    } else {
      var n := |ys| - 1;
      var last := Names(ys[n]);
      assert (xs + ys)[..|xs + ys| - 1] == xs + ys[..n];
      assert (xs + ys)[|xs + ys| - 1] == ys[n];
      assert Flat(xs + ys) == Flat(xs + ys[..n]) + last;
      FlatAppend(xs, ys[..n]);
      assert Flat(ys) == Flat(ys[..n]) + last;
    }
  }

  lemma {:induction false} FlatSingles(names: seq<string>)
    ensures Flat(Singles(names)) == names
  {
    if names != [] {
      var n := |names| - 1;
      assert Singles(names)[..n] == Singles(names[..n]);
      FlatSingles(names[..n]);
      assert names[..n] + [names[n]] == names;
    }
  }

  /** The list a permission list maps to: each permission's table value(s), in order. */
  function IosPermissionList(ps: seq<HealthLinkPermission>): seq<string> {
    if ps == [] then [] else IosPermissionList(ps[..|ps| - 1]) + Names(GenericToIosMap(ps[|ps| - 1]))
  }

  /**
   * What one read permission contributes as the source is written: an array
   * value is both spread into the accumulator and pushed whole, so after
   * flattening its names appear twice.
   */
  function ReadContribution(p: HealthLinkPermission): seq<string> {
    var e := GenericToIosMap(p);
    if e.Many? then e.names + e.names else [e.name]
  }

  function IosReadList(ps: seq<HealthLinkPermission>): seq<string> {
    if ps == [] then [] else IosReadList(ps[..|ps| - 1]) + ReadContribution(ps[|ps| - 1])
  }

  lemma MappedPrefixStep(ps: seq<HealthLinkPermission>, i: nat)
    requires i < |ps|
    ensures IosPermissionList(ps[..i + 1]) == IosPermissionList(ps[..i]) + Names(GenericToIosMap(ps[i]))
  {
    assert ps[..i + 1][..i] == ps[..i];
  }

  lemma ReadPrefixStep(ps: seq<HealthLinkPermission>, i: nat)
    requires i < |ps|
    ensures IosReadList(ps[..i + 1]) == IosReadList(ps[..i]) + ReadContribution(ps[i])
  {
    assert ps[..i + 1][..i] == ps[..i];
  }

  lemma PushStep(acc: seq<IosEntry>, e: IosEntry)
    ensures Flat(acc + [e]) == Flat(acc) + Names(e)
  {
  }

  lemma SpreadStep(acc: seq<IosEntry>, names: seq<string>)
    ensures Flat(acc + Singles(names)) == Flat(acc) + names
  {
    FlatAppend(acc, Singles(names));
    FlatSingles(names);
  }

  /** One step of the read fold as written: the spread names, then the pushed entry. */
  lemma ReadStep(before: seq<IosEntry>, p: HealthLinkPermission, after: seq<IosEntry>)
    requires var e := GenericToIosMap(p);
      after == if e.Many? then before + Singles(e.names) + [e] else before + [e]
    ensures Flat(after) == Flat(before) + ReadContribution(p)
  {
    var e := GenericToIosMap(p);
    if e.Many? {
      SpreadStep(before, e.names);
      PushStep(before + Singles(e.names), e);
    } else {
      PushStep(before, e);
    }
  }

  /** `HealthKitPermissions`: `{permissions: {read, write}}`. */
  datatype PermissionLists = PermissionLists(read: seq<string>, write: seq<string>)
  datatype HealthKitPermissions = HealthKitPermissions(permissions: PermissionLists)

  /** The write half of `genericToIosPermissions`: push each truthy table value, then flatten. */
  method IosWritePermissions(write: seq<HealthLinkPermission>) returns (r: seq<string>)
    ensures r == IosPermissionList(write)
  {
    var acc: seq<IosEntry> := [];
    var i := 0;
    while i < |write|
      invariant 0 <= i <= |write|
      invariant Flat(acc) == IosPermissionList(write[..i])
    {
      var entry := GenericToIosMap(write[i]);
      MappedPrefixStep(write, i);
      if Truthy(entry) {
        PushStep(acc, entry);
        acc := acc + [entry];
      }
      i := i + 1;
    }
    assert write[..|write|] == write;
    r := Flat(acc);
  }

  /**
   * The callback of the read fold as written: an array value is spread into
   * the accumulator, and then, there being no `else`, any truthy value (an
   * array included) is pushed as well.
   */
  method ReadReducer(acc: seq<IosEntry>, permission: HealthLinkPermission) returns (next: seq<IosEntry>)
    ensures Flat(next) == Flat(acc) + ReadContribution(permission)
  {
    var entry := GenericToIosMap(permission);
    next := acc;
    if entry.Many? {
      next := next + Singles(entry.names);
    }
    if Truthy(entry) {
      next := next + [entry];
    }
    ReadStep(acc, permission, next);
  }

  /** The read half of `genericToIosPermissions`: fold with the callback above, then flatten. */
  method IosReadPermissions(read: seq<HealthLinkPermission>) returns (r: seq<string>)
    ensures r == IosReadList(read)
  {
    var acc: seq<IosEntry> := [];
    var i := 0;
    while i < |read|
      invariant 0 <= i <= |read|
      invariant Flat(acc) == IosReadList(read[..i])
    {
      acc := ReadReducer(acc, read[i]);
      ReadPrefixStep(read, i);
      i := i + 1;
    }
    assert read[..|read|] == read;
    r := Flat(acc);
  }

  /** `genericToIosPermissions`: both folds, wrapped as `{permissions: {read, write}}`. */
  method GenericToIosPermissions(permissions: HealthPermissions) returns (r: HealthKitPermissions)
    ensures r.permissions.read == IosReadList(permissions.read)
    ensures r.permissions.write == IosPermissionList(permissions.write)
  {
    var read := IosReadPermissions(permissions.read);
    var write := IosWritePermissions(permissions.write);
    r := HealthKitPermissions(PermissionLists(read, write));
  }

  /** The read callback as evidently intended, with `else` between its two branches. */
  method ReadReducerFixed(acc: seq<IosEntry>, permission: HealthLinkPermission) returns (next: seq<IosEntry>)
    ensures Flat(next) == Flat(acc) + Names(GenericToIosMap(permission))
  {
    var entry := GenericToIosMap(permission);
    next := acc;
    if entry.Many? {
      SpreadStep(acc, entry.names);
      next := next + Singles(entry.names);
    } else if Truthy(entry) {
      PushStep(acc, entry);
      next := next + [entry];
    }
  }

  /**
   * `genericToIosPermissions` with the corrected read callback: every read
   * permission contributes its table value(s) exactly once, as on the write
   * side.
   */
  method GenericToIosPermissionsFixed(permissions: HealthPermissions) returns (r: HealthKitPermissions)
    ensures r.permissions.read == IosPermissionList(permissions.read)
    ensures r.permissions.write == IosPermissionList(permissions.write)
  {
    var read := permissions.read;
    var acc: seq<IosEntry> := [];
    var i := 0;
    while i < |read|
      invariant 0 <= i <= |read|
      invariant Flat(acc) == IosPermissionList(read[..i])
    {
      acc := ReadReducerFixed(acc, read[i]);
      MappedPrefixStep(read, i);
      i := i + 1;
    }
    assert read[..|read|] == read;
    var write := IosWritePermissions(permissions.write);
    r := HealthKitPermissions(PermissionLists(Flat(acc), write));
  }

  /** How often a permission occurs in a list. */
  function Occurrences(p: HealthLinkPermission, ps: seq<HealthLinkPermission>): nat {
    if ps == [] then 0 else Occurrences(p, ps[..|ps| - 1]) + (if ps[|ps| - 1] == p then 1 else 0)
  }

  /** Every permission contributes one name to the mapped list, blood pressure two. */
  lemma {:induction false} IosPermissionListLength(ps: seq<HealthLinkPermission>)
    ensures |IosPermissionList(ps)| == |ps| + Occurrences(BloodPressure, ps)
  {
    if ps != [] {
      IosPermissionListLength(ps[..|ps| - 1]);
    }
  }

  /** As written, every read permission contributes one name, blood pressure four. */
  lemma {:induction false} IosReadListLength(ps: seq<HealthLinkPermission>)
    ensures |IosReadList(ps)| == |ps| + 3 * Occurrences(BloodPressure, ps)
  {
    if ps != [] {
      IosReadListLength(ps[..|ps| - 1]);
    }
  }

  /** Without blood pressure the read list as written agrees with the mapped list. */
  lemma {:induction false} IosReadListWithoutBloodPressure(ps: seq<HealthLinkPermission>)
    requires BloodPressure !in ps
    ensures IosReadList(ps) == IosPermissionList(ps)
  {
    if ps != [] {
      var n := |ps| - 1;
      assert BloodPressure !in ps[..n] by {
        assert forall p :: p in ps[..n] ==> p in ps;
      }
      IosReadListWithoutBloodPressure(ps[..n]);
    }
  }

  /** Without blood pressure the mapped list is the permissions' own names, one for one, in order. */
  lemma {:induction false} IosNamesWithoutBloodPressure(ps: seq<HealthLinkPermission>)
    requires BloodPressure !in ps
    ensures |IosPermissionList(ps)| == |ps|
    ensures forall i :: 0 <= i < |ps| ==> IosPermissionList(ps)[i] == PermissionName(ps[i])
  {
    if ps != [] {
      var n := |ps| - 1;
      var init := ps[..n];
      assert BloodPressure !in init by {
        assert forall p :: p in init ==> p in ps;
      }
      IosNamesWithoutBloodPressure(init);
      var last := Names(GenericToIosMap(ps[n]));
      assert last == [PermissionName(ps[n])];
      assert IosPermissionList(ps) == IosPermissionList(init) + last;
      forall i | 0 <= i < |ps|
        ensures IosPermissionList(ps)[i] == PermissionName(ps[i])
      {
        if i < n {
          assert ps[i] == init[i];
        }
      }
    }
  }

  /** The discrepancy: reading blood pressure asks for each of its two HealthKit permissions twice. */
  lemma BloodPressureReadTwice()
    ensures IosReadList([BloodPressure])
         == [BloodPressureDiastolic, BloodPressureSystolic, BloodPressureDiastolic, BloodPressureSystolic]
    ensures IosPermissionList([BloodPressure]) == [BloodPressureDiastolic, BloodPressureSystolic]
  {
    assert [BloodPressure][..0] == [];
  }

  // ---------------------------------------------------------------------------
  // Android

  /** `genericToAndroidMap`: every permission maps to the Health Connect record type of the same name. */
  function GenericToAndroidMap(p: HealthLinkPermission): (recordType: string)
    ensures recordType == PermissionName(p)
    ensures recordType != ""
  {
    match p
    case BloodGlucose => "BloodGlucose"
    case Height => "Height"
    case Weight => "Weight"
    case HeartRate => "HeartRate"
    case RestingHeartRate => "RestingHeartRate"
    case BloodPressure => "BloodPressure"
    case OxygenSaturation => "OxygenSaturation"
    case Steps => "Steps"
  }

  datatype AccessType = ReadAccess | WriteAccess

  /** A Health Connect permission request: `{accessType, recordType}`. */
  datatype AndroidPermission = AndroidPermission(accessType: AccessType, recordType: string)

  /** One request per permission, with the given access type and the table's record type, in order. */
  function Requests(accessType: AccessType, ps: seq<HealthLinkPermission>): (r: seq<AndroidPermission>)
    ensures |r| == |ps|
    ensures forall k :: 0 <= k < |ps| ==> r[k] == AndroidPermission(accessType, GenericToAndroidMap(ps[k]))
  {
    seq(|ps|, k requires 0 <= k < |ps| => AndroidPermission(accessType, GenericToAndroidMap(ps[k])))
  }

  /** One `forEach` of `genericToAndroidPermissions`: push a request for every permission the table maps. */
  method PushRequests(acc: seq<AndroidPermission>, ps: seq<HealthLinkPermission>, accessType: AccessType)
    returns (r: seq<AndroidPermission>)
    ensures r == acc + Requests(accessType, ps)
  {
    r := acc;
    var i := 0;
    while i < |ps|
      invariant 0 <= i <= |ps|
      invariant |r| == |acc| + i
      invariant r[..|acc|] == acc
      invariant forall k :: 0 <= k < i ==> r[|acc| + k] == AndroidPermission(accessType, GenericToAndroidMap(ps[k]))
    {
      var recordType := GenericToAndroidMap(ps[i]);
      if recordType != "" {
        r := r + [AndroidPermission(accessType, recordType)];
      }
      i := i + 1;
    }
    assert r == acc + Requests(accessType, ps) by {
      assert forall k :: 0 <= k < |r| ==> r[k] == (acc + Requests(accessType, ps))[k] by {
        forall k | 0 <= k < |r|
          ensures r[k] == (acc + Requests(accessType, ps))[k]
        {
          if k < |acc| {
            assert r[k] == r[..|acc|][k];
          }
        }
      }
    }
  }

  /**
   * `genericToAndroidPermissions`: one read request per read permission, then
   * one write request per write permission, each group in the caller's order.
   */
  method GenericToAndroidPermissions(permissions: HealthPermissions) returns (r: seq<AndroidPermission>)
    ensures r == Requests(ReadAccess, permissions.read) + Requests(WriteAccess, permissions.write)
    ensures |r| == |permissions.read| + |permissions.write|
    ensures forall i :: 0 <= i < |permissions.read| ==>
      r[i] == AndroidPermission(ReadAccess, GenericToAndroidMap(permissions.read[i]))
    ensures forall j :: 0 <= j < |permissions.write| ==>
      r[|permissions.read| + j] == AndroidPermission(WriteAccess, GenericToAndroidMap(permissions.write[j]))
  {
    r := PushRequests([], permissions.read, ReadAccess);
    r := PushRequests(r, permissions.write, WriteAccess);
    assert r == Requests(ReadAccess, permissions.read) + Requests(WriteAccess, permissions.write);
  }
}
