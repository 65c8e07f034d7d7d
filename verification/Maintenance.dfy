/** Bucket maintenance configuration (pkg/resource/table_bucket/hooks.go): narrowing to the
    service's int32, the read back, and the field-aware comparison that decides whether a
    Put is needed. */
module Maintenance {
  import opened Types

  /** The settings union of the service's API. */
  datatype SdkSettings =
    | NoSettings
    | IcebergMember(nonCurrentDays: Option<int32>, unreferencedDays: Option<int32>)
    | OtherMember

  /** A status of "" is the SDK's way to leave it out. */
  datatype SdkMaintenance = SdkMaintenance(status: string, settings: SdkSettings)

  const RECOGNISED_TYPE := "icebergUnreferencedFileRemoval"

  // ----- Code that only computes -----

  function DaysToInt32(v: int64): (r: Result<int32>)
    ensures r.Ok? <==> 0 <= v as int <= INT32_MAX
    ensures r.Ok? ==> r.value as int == v as int
    ensures r.Err? ==> !r.error.terminal
  {
    if v < 0 || v as int > INT32_MAX then Err(PlainError("value out of range for int32"))
    else Ok(v as int32)
  }

  function DaysToSdk(field: string, days: Option<int64>): Result<Option<int32>> {
    if days.None? then Ok(None)
    else match DaysToInt32(days.value)
      case Err(e) => Err(TerminalError(field + ": " + e.text))
      case Ok(v) => Ok(Some(v))
  }

  /** The request syncMaintenance builds for one declared value, or the terminal error it
      returns instead. */
  function ToSdk(val: MaintenanceValue): Result<SdkMaintenance> {
    var status := val.status.GetOr("");
    if val.settings.None? || val.settings.value.iceberg.None? then
      Ok(SdkMaintenance(status, NoSettings))
    else
      var s := val.settings.value.iceberg.value;
      match DaysToSdk("nonCurrentDays", s.nonCurrentDays)
      case Err(e) => Err(e)
      case Ok(nonCurrent) =>
        match DaysToSdk("unreferencedDays", s.unreferencedDays)
        case Err(e) => Err(e)
        case Ok(unreferenced) => Ok(SdkMaintenance(status, IcebergMember(nonCurrent, unreferenced)))
  }

  function DaysFromSdk(days: Option<int32>): Option<int64> {
    if days.None? then None else Some(days.value as int64)
  }

  /** maintenanceValueFromSDK */
  function FromSdk(val: SdkMaintenance): MaintenanceValue {
    MaintenanceValue(
      if val.settings.IcebergMember? then
        Some(MaintenanceSettings(Some(IcebergRemovalSettings(
          DaysFromSdk(val.settings.nonCurrentDays), DaysFromSdk(val.settings.unreferencedDays)))))
      else None,
      if val.status != "" then Some(val.status) else None)
  }

  /** What the read hook puts into the spec: unknown types are skipped, and nothing is nil. */
  function Observed(config: map<string, SdkMaintenance>): MaintenanceMap {
    if RECOGNISED_TYPE in config then Some(map[RECOGNISED_TYPE := Some(FromSdk(config[RECOGNISED_TYPE]))])
    else None
  }

  /** The service's contract: it stores what a Put declares and fills in the rest with
      whatever it likes (`fill`). */
  function Stored(put: SdkMaintenance, fill: SdkMaintenance): SdkMaintenance {
    SdkMaintenance(
      if put.status != "" then put.status else fill.status,
      if put.settings.IcebergMember? then
        var f := if fill.settings.IcebergMember? then fill.settings else IcebergMember(None, None);
        IcebergMember(
          if put.settings.nonCurrentDays.Some? then put.settings.nonCurrentDays else f.nonCurrentDays,
          if put.settings.unreferencedDays.Some? then put.settings.unreferencedDays else f.unreferencedDays)
      else fill.settings)
  }

  // ----- "Observed covers desired" -----

  ghost predicate Declared<T>(desired: Option<T>, observed: Option<T>) {
    desired.Some? ==> observed == desired
  }

  ghost predicate SettingsCovered(d: IcebergRemovalSettings, l: IcebergRemovalSettings) {
    Declared(d.nonCurrentDays, l.nonCurrentDays) && Declared(d.unreferencedDays, l.unreferencedDays)
  }

  function Removal(v: MaintenanceValue): Option<IcebergRemovalSettings> {
    if v.settings.Some? then v.settings.value.iceberg else None
  }

  ghost predicate ValueCovered(d: MaintenanceValue, l: MaintenanceValue) {
    && Declared(d.status, l.status)
    && (Removal(d).Some? ==> Removal(l).Some? && SettingsCovered(Removal(d).value, Removal(l).value))
  }

  ghost predicate EntryCovered(d: Option<MaintenanceValue>, jobType: string, latest: MaintenanceMap) {
    d.Some? ==>
      && jobType in Entries(latest)
      && Entries(latest)[jobType].Some?
      && ValueCovered(d.value, Entries(latest)[jobType].value)
  }

  /** Every sub-field the desired configuration declares is observed as declared. */
  ghost predicate Covered(desired: MaintenanceMap, latest: MaintenanceMap) {
    forall t :: t in Entries(desired) ==> EntryCovered(Entries(desired)[t], t, latest)
  }

  /** The comparison loop with its early returns: in any order of the map it answers the
      quantified statement. */
  method MaintenanceNeedsSync(desired: MaintenanceMap, latest: MaintenanceMap) returns (needsSync: bool)
    ensures needsSync <==> !Covered(desired, latest)
  {
    var ds, ls := Entries(desired), Entries(latest);
    var order := RangeKeys(ds);
    for i := 0 to |order|
      invariant forall t :: t in order[..i] ==> EntryCovered(ds[t], t, latest)
    {
      var jobType := order[i];
      if ds[jobType].None? {
        continue;
      }
      var d := ds[jobType].value;
      if jobType !in ls || ls[jobType].None? {
        return true;
      }
      var l := ls[jobType].value;
      if d.status.Some? && (l.status.None? || d.status.value != l.status.value) {
        return true;
      }
      if d.settings.Some? && d.settings.value.iceberg.Some? {
        var wanted := d.settings.value.iceberg.value;
        var seen: Option<IcebergRemovalSettings> := None;
        if l.settings.Some? {
          seen := l.settings.value.iceberg;
        }
        if seen.None? {
          return true;
        }
        if wanted.unreferencedDays.Some? &&
           (seen.value.unreferencedDays.None? || wanted.unreferencedDays.value != seen.value.unreferencedDays.value) {
          return true;
        }
        if wanted.nonCurrentDays.Some? &&
           (seen.value.nonCurrentDays.None? || wanted.nonCurrentDays.value != seen.value.nonCurrentDays.value) {
          return true;
        }
      }
    }
    assert order[..|order|] == order;
    return false;
  }

  lemma CoveredIsReflexive(m: MaintenanceMap)
    ensures Covered(m, m)
  {
  }

  lemma CoveredIsTransitive(a: MaintenanceMap, b: MaintenanceMap, c: MaintenanceMap)
    requires Covered(a, b) && Covered(b, c)
    ensures Covered(a, c)
  {
  }

  // ----- Round trip and settling -----

  predicate InRange(days: Option<int64>) {
    days.Some? ==> 0 <= days.value as int <= INT32_MAX
  }

  predicate DaysInRange(v: MaintenanceValue) {
    Removal(v).Some? ==> InRange(Removal(v).value.nonCurrentDays) && InRange(Removal(v).value.unreferencedDays)
  }

  /** A declared value that the Put-then-read cycle can reproduce. */
  predicate Settles(v: MaintenanceValue) {
    && v.status != Some("")
    && DaysInRange(v)
  }

  /** Narrowing succeeds exactly on in-range days; otherwise the error is terminal. */
  lemma NarrowingSucceedsIff(v: MaintenanceValue)
    ensures ToSdk(v).Ok? <==> DaysInRange(v)
    ensures ToSdk(v).Err? ==> ToSdk(v).error.terminal
  {
  }

  /** Narrowing, storing and reading back restores every declared sub-field, whatever the
      service fills in, exactly for the values that settle. */
  lemma RoundTripIff(jobType: string, v: MaintenanceValue, config: map<string, SdkMaintenance>, fill: SdkMaintenance)
    ensures jobType == RECOGNISED_TYPE && Settles(v) <==>
            && ToSdk(v).Ok?
            && EntryCovered(Some(v), jobType, Observed(config[jobType := Stored(ToSdk(v).value, fill)]))
  {
  }

  /** A request carries what is declared and nothing else; an error names the first day count
      that does not fit. */
  lemma RequestCarriesDeclared(v: MaintenanceValue)
    ensures match ToSdk(v)
            case Ok(put) =>
              && put.status == (if v.status.Some? then v.status.value else "")
              && !put.settings.OtherMember?
              && (put.settings.IcebergMember? <==> v.settings.Some? && v.settings.value.iceberg.Some?)
              && (put.settings.IcebergMember? ==>
                    var s := v.settings.value.iceberg.value;
                    SameDays(s.nonCurrentDays, put.settings.nonCurrentDays) &&
                    SameDays(s.unreferencedDays, put.settings.unreferencedDays))
            case Err(e) =>
              && v.settings.Some? && v.settings.value.iceberg.Some?
              && var s := v.settings.value.iceberg.value;
                 var field := if InRange(s.nonCurrentDays) then "unreferencedDays" else "nonCurrentDays";
                 e == TerminalError(field + ": " + "value out of range for int32")
  {
  }

  ghost predicate SameDays(a: Option<int64>, b: Option<int32>) {
    if a.None? then b.None? else b.Some? && a.value as int == b.value as int
  }

  /** A read shows exactly what the service has for the recognised type, "" being no status. */
  lemma ReadShowsRecognised(config: map<string, SdkMaintenance>)
    ensures var key := "icebergUnreferencedFileRemoval";
            match Observed(config)
            case None => key !in config
            case Some(m) =>
              && m.Keys == {key} && key in config && m[key].Some?
              && var shown := m[key].value;
                 && shown.status == (if config[key].status == "" then None else Some(config[key].status))
                 && (shown.settings.Some? <==> config[key].settings.IcebergMember?)
                 && (shown.settings.Some? ==>
                       && shown.settings.value.iceberg.Some?
                       && SameDays(shown.settings.value.iceberg.value.nonCurrentDays,
                                   config[key].settings.nonCurrentDays)
                       && SameDays(shown.settings.value.iceberg.value.unreferencedDays,
                                   config[key].settings.unreferencedDays))
  {
  }

  /** An entry can be covered by what some service state shows exactly when its type is the
      recognised one, its status is not "" and its days fit 32 bits: an unknown type is never
      seen to be in place, so its delta never goes away. */
  lemma EverCoveredIff(jobType: string, v: MaintenanceValue)
    ensures (exists config :: EntryCovered(Some(v), jobType, Observed(config))) <==>
            && jobType == RECOGNISED_TYPE && v.status != Some("")
            && (Removal(v).Some? ==> Fits(Removal(v).value.nonCurrentDays) && Fits(Removal(v).value.unreferencedDays))
  {
    if jobType == RECOGNISED_TYPE && v.status != Some("") &&
       (Removal(v).Some? ==> Fits(Removal(v).value.nonCurrentDays) && Fits(Removal(v).value.unreferencedDays))
    {
      var s := Removal(v).GetOr(IcebergRemovalSettings(None, None));
      var shown := SdkMaintenance(v.status.GetOr(""), IcebergMember(
        if s.nonCurrentDays.Some? then Some(s.nonCurrentDays.value as int32) else None,
        if s.unreferencedDays.Some? then Some(s.unreferencedDays.value as int32) else None));
      assert EntryCovered(Some(v), jobType, Observed(map[jobType := shown]));
    }
  }

  predicate Fits(days: Option<int64>) {
    days.Some? ==> INT32_MIN <= days.value as int <= INT32_MAX
  }

  /** A desired configuration all of whose declared entries settle. */
  predicate WellFormed(m: MaintenanceMap) {
    forall t :: t in Entries(m) && Entries(m)[t].Some? ==> t == RECOGNISED_TYPE && Settles(Entries(m)[t].value)
  }
}
